/** The orchestrator's request handlers over their two module dictionaries. */
module OrchestratorModule {
  import opened Prelude
  import opened OrchestratorSpec
  import opened OrchestratorSafety
  import opened OrchestratorAnswers

  class Orchestrator {
    const maxSandboxes: nat
    var sandboxCache: map<Sid, Entry>
    var agentMap: map<string, Sid>
    var pods: map<Sid, Pod>
    ghost var generation: nat
    ghost var releasing: multiset<Handle>

    ghost function S(): State
      reads this
    {
      State(sandboxCache, agentMap, pods, generation, releasing)
    }

    constructor (maxSandboxes: nat, pods: map<Sid, Pod>)
      ensures this.maxSandboxes == maxSandboxes && S() == State(map[], map[], pods, 0, multiset{})
      ensures Good(S()) && LabelsAgree(S())
    {
      this.maxSandboxes, this.pods := maxSandboxes, pods;
      sandboxCache, agentMap, generation, releasing := map[], map[], 0, multiset{};
    }

    method UpdatePodLabel(sid: Sid, agent: string)
      modifies this
      ensures S() == old(S()).(pods := Labelled(old(pods), sid, agent))
    {
      if sid in pods { pods := pods[sid := pods[sid].(agent := Some(agent))]; }
    }

    /** create and provision: the new sandbox is in the pool without an agent. */
    method CreateSandbox(sid: Sid, os: string, status: Status) returns (ok: bool)
      requires Possible(S(), Create(sid, os, status))
      modifies this
      ensures S() == Step(maxSandboxes, old(S()), Create(sid, os, status)) && ok == (|old(sandboxCache)| < maxSandboxes)
      ensures CreateSays(maxSandboxes, old(S()), S(), sid, os, status, ok)
    {
      CreateAnswers(maxSandboxes, S(), sid, os, status);
      if |sandboxCache| >= maxSandboxes { return false; }
      pods := pods[sid := Pod(None, os, false)];
      sandboxCache := sandboxCache[sid := Entry(None, os, false, status)];
      return true;
    }

    /** pick is the first idle sandbox of the image that the scan of the cache meets, if any. */
    method SessionStartHandler(agent: Option<string>, os: string, persistent: bool, pick: Option<Sid>, newSid: Sid, created: bool)
      returns (sid: Option<Sid>)
      requires Possible(S(), SessionStart(agent, os, persistent, pick, newSid, created))
      modifies this
      ensures S() == Step(maxSandboxes, old(S()), SessionStart(agent, os, persistent, pick, newSid, created))
      ensures sid.Some? ==> sid.value in sandboxCache
      ensures sid.Some? && Truthy(agent) ==> agent.value in agentMap && agentMap[agent.value] == sid.value
      ensures IndexOk(old(S())) ==> IndexOk(S())
      ensures StartSays(maxSandboxes, old(S()), S(), SessionStart(agent, os, persistent, pick, newSid, created), sid)
    {
      hide StartSays, IndexOk;
      StartAnswers(maxSandboxes, S(), SessionStart(agent, os, persistent, pick, newSid, created));
      if IndexOk(S()) { StartIndexed(maxSandboxes, S(), SessionStart(agent, os, persistent, pick, newSid, created)); }
      if Truthy(agent) && agent.value in agentMap {
        var existing := agentMap[agent.value];
        if existing in sandboxCache && Serving(sandboxCache[existing].status) { return Some(existing); }
      }
      if pick.Some? {
        var entry := sandboxCache[pick.value].(agent := agent, status := if Truthy(agent) then Assigned else Idle);
        sandboxCache := sandboxCache[pick.value := entry];
        if Truthy(agent) {
          agentMap := agentMap[agent.value := pick.value];
          UpdatePodLabel(pick.value, agent.value);
        }
        return pick;
      }
      if |sandboxCache| >= maxSandboxes || !created { return None; }
      pods := pods[newSid := Pod(None, os, persistent)];
      sandboxCache := sandboxCache[newSid := Entry(agent, os, persistent, if Truthy(agent) then Assigned else Starting)];
      if Truthy(agent) {
        agentMap := agentMap[agent.value := newSid];
        UpdatePodLabel(newSid, agent.value);
      }
      return Some(newSid);
    }

    method SessionEndHandler(name: string)
      modifies this
      ensures S() == Step(maxSandboxes, old(S()), SessionEnd(name))
      ensures name !in agentMap
      ensures name in old(agentMap) && old(agentMap)[name] in sandboxCache ==> Free(sandboxCache[old(agentMap)[name]])
      ensures IndexOk(old(S())) ==> IndexOk(S())
      ensures EndSays(old(S()), S(), name)
    {
      hide EndSays, IndexOk;
      EndAnswers(maxSandboxes, S(), name);
      if IndexOk(S()) { RemovalIndexed(maxSandboxes, S(), SessionEnd(name)); }
      if name !in agentMap {
        assert agentMap - {name} == agentMap;
        return;
      }
      var sid := agentMap[name];
      agentMap := agentMap - {name};
      if sid !in sandboxCache { return; }
      if sandboxCache[sid].persistent {
        sandboxCache := sandboxCache[sid := sandboxCache[sid].(agent := None, status := Idle)];
        UpdatePodLabel(sid, "");
      } else {
        pods := pods - {sid};
        sandboxCache := sandboxCache - {sid};
      }
    }

    method ClaimSandbox(sid: Sid, name: string) returns (ok: bool)
      modifies this
      ensures S() == Step(maxSandboxes, old(S()), Claim(sid, name)) && ok == (sid in old(sandboxCache) && Free(old(sandboxCache)[sid]))
      ensures IndexOk(old(S())) && name != "" ==> IndexOk(S())
      ensures ClaimSays(old(S()), S(), sid, name, ok)
    {
      hide ClaimSays, IndexOk;
      ClaimAnswers(maxSandboxes, S(), sid, name);
      if IndexOk(S()) && name != "" { OthersIndexed(maxSandboxes, S(), Claim(sid, name)); }
      if sid !in sandboxCache { return false; }
      if sandboxCache[sid].status != Idle || sandboxCache[sid].agent != None { return false; }
      sandboxCache := sandboxCache[sid := sandboxCache[sid].(agent := Some(name), status := Assigned)];
      agentMap := agentMap[name := sid];
      UpdatePodLabel(sid, name);
      return true;
    }

    /** Up to the await that wipes an ephemeral sandbox; waiting tells whether there is one. */
    method ReleaseSandboxBegin(sid: Sid) returns (waiting: bool)
      modifies this
      ensures S() == Step(maxSandboxes, old(S()), ReleaseBegin(sid))
      ensures waiting <==> releasing == old(releasing) + multiset{Handle(sid, generation)}
      ensures IndexOk(old(S())) ==> IndexOk(S()) && (sid in sandboxCache ==> Nobody(S(), sid))
      ensures ReleaseSays(old(S()), S(), sid, waiting)
    {
      hide ReleaseSays;
      assert (releasing + multiset{Handle(sid, generation)})[Handle(sid, generation)] == releasing[Handle(sid, generation)] + 1;
      ReleaseAnswers(maxSandboxes, S(), sid);
      if IndexOk(S()) { ReleaseIndexed(maxSandboxes, S(), ReleaseBegin(sid)); }
      if sid !in sandboxCache { return false; }
      var entry := sandboxCache[sid];
      if Truthy(entry.agent) { agentMap := agentMap - {entry.agent.value}; }
      if !entry.persistent {
        releasing := releasing + multiset{Handle(sid, generation)};
        return true;
      }
      sandboxCache := sandboxCache[sid := entry.(agent := None, status := Idle)];
      UpdatePodLabel(sid, "");
      return false;
    }

    /** After the await; current tells whether the entry the handler holds is still the cached one. */
    method ReleaseSandboxResume(sid: Sid, ghost held: nat, current: bool)
      requires Possible(S(), ReleaseResume(Handle(sid, held))) && current == (held == generation && sid in sandboxCache)
      modifies this
      ensures S() == Step(maxSandboxes, old(S()), ReleaseResume(Handle(sid, held)))
      ensures current ==> sid in sandboxCache && Free(sandboxCache[sid])
      ensures IndexOk(old(S())) ==> (IndexOk(S()) <==> !current || Nobody(old(S()), sid))
      ensures ResumeSays(old(S()), S(), Handle(sid, held), current)
    {
      hide ResumeSays, IndexOk;
      ResumeAnswers(maxSandboxes, S(), Handle(sid, held));
      if IndexOk(S()) { ResumeExact(maxSandboxes, S(), Handle(sid, held)); }
      releasing := releasing - multiset{Handle(sid, held)};
      if current { sandboxCache := sandboxCache[sid := sandboxCache[sid].(agent := None, status := Idle)]; }
      UpdatePodLabel(sid, "");
    }

    method DestroySandbox(sid: Sid) returns (ok: bool)
      modifies this
      ensures S() == Step(maxSandboxes, old(S()), Destroy(sid)) && ok == (sid in old(sandboxCache))
      ensures sid !in sandboxCache
      ensures IndexOk(old(S())) ==> IndexOk(S()) && Nobody(S(), sid)
      ensures DestroySays(old(S()), S(), sid, ok)
    {
      hide DestroySays;
      DestroyAnswers(maxSandboxes, S(), sid);
      if IndexOk(S()) { RemovalIndexed(maxSandboxes, S(), Destroy(sid)); }
      if sid !in sandboxCache { return false; }
      var entry := sandboxCache[sid];
      if Truthy(entry.agent) { agentMap := agentMap - {entry.agent.value}; }
      pods := pods - {sid};
      sandboxCache := sandboxCache - {sid};
      return true;
    }

    /** order is the order in which the cluster lists the pods. */
    method RebuildCache(order: seq<Sid>, statuses: map<Sid, Status>)
      requires Possible(S(), Rebuild(order, statuses))
      modifies this
      ensures S() == Step(maxSandboxes, old(S()), Rebuild(order, statuses)) && IndexOk(S())
      ensures RebuildSays(old(S()), S(), order, statuses)
    {
      hide RebuildSays, IndexOk;
      RebuildAnswers(maxSandboxes, S(), Rebuild(order, statuses));
      RebuildIndexed(maxSandboxes, S(), Rebuild(order, statuses));
      sandboxCache, agentMap := RebuildMaps(pods, order, statuses);
      generation := generation + 1;
    }
  }

  method RebuildMaps(pods: map<Sid, Pod>, order: seq<Sid>, statuses: map<Sid, Status>)
    returns (cache: map<Sid, Entry>, agents: map<string, Sid>)
    requires (forall i :: 0 <= i < |order| ==> order[i] in pods) && forall sid :: sid in pods ==> sid in order && sid in statuses
    ensures cache == map sid | sid in pods :: RebuiltEntry(pods[sid], statuses[sid])
    ensures agents == RebuiltAgents(pods, order)
  {
    cache, agents := map[], map[];
    for i := 0 to |order|
      invariant forall sid :: sid in cache <==> sid in order[..i]
      invariant forall sid :: sid in cache ==> sid in pods && cache[sid] == RebuiltEntry(pods[sid], statuses[sid])
      invariant agents == RebuiltAgents(pods, order[..i])
    {
      hide RebuiltEntry;
      assert order[..i + 1][..i] == order[..i] && order[..i + 1] == order[..i] + [order[i]];
      var pod := pods[order[i]];
      cache := cache[order[i] := RebuiltEntry(pod, statuses[order[i]])];
      if Truthy(pod.agent) { agents := agents[pod.agent.value := order[i]]; }
    }
    assert order[..|order|] == order;
  }
}
