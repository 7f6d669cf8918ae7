/** What each request does to a sandbox's entry and pod, told field by field. */
module OrchestratorAnswers {
  import opened Prelude
  import opened OrchestratorSpec
  import opened OrchestratorSafety

  /** No sandbox and no pod but sid's differs, and no rebuild happened. */
  ghost predicate OthersKept(s: State, t: State, sid: Sid) {
    t.cache - {sid} == s.cache - {sid} && t.pods - {sid} == s.pods - {sid} && t.generation == s.generation
  }

  /** t has the pod of s under the label, or still none. */
  ghost predicate PodLabelled(s: State, t: State, sid: Sid, agent: string) {
    (sid in t.pods <==> sid in s.pods) && (sid in s.pods ==> t.pods[sid] == Pod(Some(agent), s.pods[sid].os, s.pods[sid].persistent))
  }

  /** The sandbox is free again, is what it was otherwise, and its pod has lost its label. */
  ghost predicate FreedIn(s: State, t: State, sid: Sid)
    requires sid in s.cache
  {
    sid in t.cache && t.cache[sid] == Entry(None, s.cache[sid].os, s.cache[sid].persistent, Idle) && PodLabelled(s, t, sid, "")
  }

  predicate Nameless(agent: Option<string>) {
    agent == None || agent == Some("")
  }

  /** The end of a session frees a persistent sandbox and destroys any other, with its pod. */
  ghost predicate EndSays(s: State, t: State, name: string) {
    t.agents == s.agents - {name} && t.releasing == s.releasing
    && if name !in s.agents || s.agents[name] !in s.cache then t.cache == s.cache && t.pods == s.pods && t.generation == s.generation else
         var sid := s.agents[name];
         OthersKept(s, t, sid) && (sid in t.cache <==> s.cache[sid].persistent)
         && (if s.cache[sid].persistent then FreedIn(s, t, sid) else sid !in t.pods)
  }

  /** A release frees a persistent sandbox at once. Any other one waits, and only its agent is no longer indexed. */
  ghost predicate ReleaseSays(s: State, t: State, sid: Sid, waiting: bool) {
    (waiting <==> sid in s.cache && !s.cache[sid].persistent)
    && t.releasing == (if waiting then s.releasing + multiset{Handle(sid, s.generation)} else s.releasing)
    && t.agents == (if sid !in s.cache || Nameless(s.cache[sid].agent) then s.agents else s.agents - {s.cache[sid].agent.value})
    && OthersKept(s, t, sid)
    && if sid in s.cache && s.cache[sid].persistent then FreedIn(s, t, sid) else t.cache == s.cache && t.pods == s.pods
  }

  /** When a release resumes, the sandbox is free if its entry is still the held one, and its pod has lost its label anyway. */
  ghost predicate ResumeSays(s: State, t: State, h: Handle, current: bool)
    requires current ==> h.sid in s.cache
  {
    t.releasing == s.releasing - multiset{h} && t.agents == s.agents && OthersKept(s, t, h.sid)
    && if current then FreedIn(s, t, h.sid) else t.cache == s.cache && PodLabelled(s, t, h.sid, "")
  }

  /** t is s with the sandbox held by the agent in entry, index and label. */
  ghost predicate HeldIn(s: State, t: State, sid: Sid, agent: string) {
    sid in t.cache && t.cache[sid].agent == Some(agent) && t.cache[sid].status == Assigned
    && t.agents == s.agents[agent := sid] && (sid in t.pods ==> t.pods[sid].agent == Some(agent))
  }

  /** A claim takes a sandbox that is idle without an agent, and no other one. */
  ghost predicate ClaimSays(s: State, t: State, sid: Sid, name: string, ok: bool) {
    (ok <==> sid in s.cache && s.cache[sid].status == Idle && s.cache[sid].agent == None)
    && if !ok then t == s else
         OthersKept(s, t, sid) && t.releasing == s.releasing && HeldIn(s, t, sid, name) && PodLabelled(s, t, sid, name)
         && t.cache[sid].os == s.cache[sid].os && t.cache[sid].persistent == s.cache[sid].persistent
  }

  /** The sandbox an agent is indexed for is cached and may still serve. */
  predicate StillServed(s: State, agent: Option<string>) {
    !Nameless(agent) && agent.value in s.agents && s.agents[agent.value] in s.cache
    && s.cache[s.agents[agent.value]].status in {Assigned, Idle, Running, Starting}
  }

  /** A started session gets its agent's sandbox, or else an idle one of the image, or else a new one, or else none. */
  ghost predicate StartSays(max: nat, s: State, t: State, ev: Event, sid: Option<Sid>)
    requires ev.SessionStart?
  {
    if StillServed(s, ev.agent) then sid == Some(s.agents[ev.agent.value]) && t == s
    else if ev.pick == None && (|s.cache| >= max || !ev.created) then sid == None && t == s
    else
      var it := if ev.pick.Some? then ev.pick.value else ev.newSid;
      sid == Some(it) && OthersKept(s, t, it) && t.releasing == s.releasing && it in t.cache && t.cache[it].os == ev.os
      && (if Nameless(ev.agent) then t.cache[it].agent == ev.agent && t.agents == s.agents else HeldIn(s, t, it, ev.agent.value))
      && (ev.pick.Some? ==> it in s.cache && t.cache[it].persistent == s.cache[it].persistent
                            && (Nameless(ev.agent) ==> t.cache[it].status == Idle && t.pods == s.pods)
                            && (!Nameless(ev.agent) ==> PodLabelled(s, t, it, ev.agent.value)))
      && (ev.pick.None? ==> t.cache[it].persistent == ev.persistent && it in t.pods
                            && t.pods[it].os == ev.os && t.pods[it].persistent == ev.persistent
                            && (Nameless(ev.agent) ==> t.cache[it].status == Starting && t.pods[it].agent == None))
  }

  /** Below the limit a new sandbox appears, with its pod, without an agent; otherwise nothing does. */
  ghost predicate CreateSays(max: nat, s: State, t: State, sid: Sid, os: string, status: Status, ok: bool) {
    (ok <==> |s.cache| < max)
    && if !ok then t == s else
         OthersKept(s, t, sid) && t.agents == s.agents && t.releasing == s.releasing
         && sid in t.cache && t.cache[sid] == Entry(None, os, false, status) && sid in t.pods && t.pods[sid] == Pod(None, os, false)
  }

  /** A destroyed sandbox is gone with its pod, and the agent it recorded is no longer indexed. */
  ghost predicate DestroySays(s: State, t: State, sid: Sid, ok: bool) {
    (ok <==> sid in s.cache)
    && if !ok then t == s else
         OthersKept(s, t, sid) && t.releasing == s.releasing && sid !in t.cache && sid !in t.pods
         && t.agents == if Nameless(s.cache[sid].agent) then s.agents else s.agents - {s.cache[sid].agent.value}
  }

  /** A rebuild takes every entry from the pod's labels and its reported status, and indexes the last pod listed for an agent. */
  ghost predicate RebuildSays(s: State, t: State, order: seq<Sid>, statuses: map<Sid, Status>)
    requires forall sid :: sid in s.pods ==> sid in statuses
  {
    t.pods == s.pods && t.cache.Keys == s.pods.Keys && t.generation == s.generation + 1 && t.releasing == s.releasing
    && (forall sid :: sid in s.pods ==>
          var pod := s.pods[sid];
          t.cache[sid] == Entry(pod.agent, pod.os, pod.persistent,
                                if !Nameless(pod.agent) then Assigned else if statuses[sid] == Running then Idle else statuses[sid]))
    && forall a, sid :: (a in t.agents && t.agents[a] == sid) <==> LastFor(s.pods, order, a, sid)
  }

  /** sid's pod is labelled with the agent, and no pod listed behind it is. */
  ghost predicate LastFor(pods: map<Sid, Pod>, order: seq<Sid>, a: string, sid: Sid) {
    a != "" && exists i :: 0 <= i < |order| && order[i] == sid && order[i] in pods && pods[order[i]].agent == Some(a)
                           && forall j :: i < j < |order| && order[j] in pods ==> pods[order[j]].agent != Some(a)
  }

  lemma {:induction false} LastIndexed(pods: map<Sid, Pod>, order: seq<Sid>, a: string, sid: Sid)
    requires forall i :: 0 <= i < |order| ==> order[i] in pods
    ensures var agents := RebuiltAgents(pods, order); (a in agents && agents[a] == sid) <==> LastFor(pods, order, a, sid)
  {
    if order != [] {
      var n := |order| - 1;
      LastIndexed(pods, order[..n], a, sid);
      if a != "" && pods[order[n]].agent == Some(a) {
        assert LastFor(pods, order, a, order[n]);
      } else if LastFor(pods, order[..n], a, sid) {
        var i :| 0 <= i < n && order[i] == sid && pods[order[i]].agent == Some(a)
                 && forall j :: i < j < n ==> pods[order[..n][j]].agent != Some(a);
        assert forall j :: i < j < |order| ==> j == n || order[j] == order[..n][j];
      }
    }
  }

  lemma EndAnswers(max: nat, s: State, name: string)
    ensures EndSays(s, Step(max, s, SessionEnd(name)), name)
  {
  }

  lemma ReleaseAnswers(max: nat, s: State, sid: Sid)
    ensures ReleaseSays(s, Step(max, s, ReleaseBegin(sid)), sid, sid in s.cache && !s.cache[sid].persistent)
  {
  }

  lemma ResumeAnswers(max: nat, s: State, h: Handle)
    requires h in s.releasing
    ensures ResumeSays(s, Step(max, s, ReleaseResume(h)), h, Live(s, h))
  {
  }

  lemma ClaimAnswers(max: nat, s: State, sid: Sid, name: string)
    ensures ClaimSays(s, Step(max, s, Claim(sid, name)), sid, name, sid in s.cache && Free(s.cache[sid]))
  {
  }

  lemma PickAnswers(max: nat, s: State, ev: Event)
    requires ev.SessionStart? && Possible(s, ev) && !HasServing(s, ev.agent) && ev.pick.Some?
    ensures StartSays(max, s, Step(max, s, ev), ev, ev.pick)
  {
  }

  lemma NewAnswers(max: nat, s: State, ev: Event)
    requires ev.SessionStart? && Possible(s, ev) && !HasServing(s, ev.agent) && ev.pick.None?
    ensures StartSays(max, s, Step(max, s, ev), ev, if |s.cache| >= max || !ev.created then None else Some(ev.newSid))
  {
    if |s.cache| < max && ev.created {
      var named := !Nameless(ev.agent);
      var pod := Pod(if named then ev.agent else None, ev.os, ev.persistent);
      var t := s.(cache := s.cache[ev.newSid := Entry(ev.agent, ev.os, ev.persistent, if named then Assigned else Starting)],
                  agents := if named then s.agents[ev.agent.value := ev.newSid] else s.agents, pods := s.pods[ev.newSid := pod]);
      assert Step(max, s, ev) == t;
      NewSays(max, s, t, ev);
    }
  }

  lemma NewSays(max: nat, s: State, t: State, ev: Event)
    requires ev.SessionStart? && !StillServed(s, ev.agent) && ev.pick.None? && |s.cache| < max && ev.created
    requires ev.newSid !in s.cache && ev.newSid !in s.pods
    requires var named := !Nameless(ev.agent);
             t == s.(cache := s.cache[ev.newSid := Entry(ev.agent, ev.os, ev.persistent, if named then Assigned else Starting)],
                     agents := if named then s.agents[ev.agent.value := ev.newSid] else s.agents,
                     pods := s.pods[ev.newSid := Pod(if named then ev.agent else None, ev.os, ev.persistent)])
    ensures StartSays(max, s, t, ev, Some(ev.newSid))
  {
    hide OthersKept;
    OneChanged(s, t, ev.newSid);
  }

  lemma OneChanged(s: State, t: State, sid: Sid)
    requires sid in t.cache && t.cache == s.cache[sid := t.cache[sid]] && sid in t.pods && t.pods == s.pods[sid := t.pods[sid]]
    requires t.generation == s.generation
    ensures OthersKept(s, t, sid)
  {
  }

  lemma StartAnswers(max: nat, s: State, ev: Event)
    requires ev.SessionStart? && Possible(s, ev)
    ensures StartSays(max, s, Step(max, s, ev), ev,
                      if HasServing(s, ev.agent) then Some(s.agents[ev.agent.value]) else if ev.pick.Some? then ev.pick
                      else if |s.cache| >= max || !ev.created then None else Some(ev.newSid))
  {
    if HasServing(s, ev.agent) {
      hide Handed, OthersKept, HeldIn, PodLabelled;
      assert StillServed(s, ev.agent);
    } else {
      hide StartSays, Step;
      if ev.pick.Some? { PickAnswers(max, s, ev); } else { NewAnswers(max, s, ev); }
    }
  }

  lemma CreateAnswers(max: nat, s: State, sid: Sid, os: string, status: Status)
    requires Possible(s, Create(sid, os, status))
    ensures CreateSays(max, s, Step(max, s, Create(sid, os, status)), sid, os, status, |s.cache| < max)
  {
  }

  lemma DestroyAnswers(max: nat, s: State, sid: Sid)
    ensures DestroySays(s, Step(max, s, Destroy(sid)), sid, sid in s.cache)
  {
  }

  /** A status written into an entry reaches it only while the handler's entry is the cached one, and nothing else changes. */
  lemma StatusAnswers(max: nat, s: State, h: Handle, status: Status)
    ensures var t := Step(max, s, SetStatus(h, status));
            OthersKept(s, t, h.sid) && t.agents == s.agents && t.pods == s.pods && t.releasing == s.releasing
            && (h.sid in t.cache <==> h.sid in s.cache)
            && (h.sid in s.cache ==> t.cache[h.sid] == if h.generation == s.generation then s.cache[h.sid].(status := status) else s.cache[h.sid])
  {
  }

  /** Making a cached sandbox persistent or not reaches its entry and its pod, and nothing else. */
  lemma PersistenceAnswers(max: nat, s: State, sid: Sid, persistent: bool)
    ensures var t := Step(max, s, SetPersistent(sid, persistent));
            OthersKept(s, t, sid) && t.agents == s.agents && t.releasing == s.releasing
            && (sid in t.cache <==> sid in s.cache) && (sid in t.pods <==> sid in s.pods)
            && (sid in s.cache ==> t.cache[sid] == s.cache[sid].(persistent := persistent))
            && (sid in s.pods ==> t.pods[sid] == if sid in s.cache then s.pods[sid].(persistent := persistent) else s.pods[sid])
  {
  }

  lemma RebuildAnswers(max: nat, s: State, ev: Event)
    requires ev.Rebuild? && Possible(s, ev)
    ensures RebuildSays(s, Step(max, s, ev), ev.order, ev.statuses)
  {
    forall a, sid ensures var agents := RebuiltAgents(s.pods, ev.order);
      (a in agents && agents[a] == sid) <==> LastFor(s.pods, ev.order, a, sid)
    {
      LastIndexed(s.pods, ev.order, a, sid);
    }
  }

  /**
   * A release that nothing overtakes leaves the sandbox free, the same in everything else, and nobody indexed for it:
   * a persistent one at its first step, any other when it resumes.
   */
  lemma ReleaseFrees(max: nat, s: State, sid: Sid)
    requires IndexOk(s) && sid in s.cache
    ensures var begun := Step(max, s, ReleaseBegin(sid));
            var done := if s.cache[sid].persistent then begun else Step(max, begun, ReleaseResume(Handle(sid, s.generation)));
            FreedIn(s, done, sid) && OthersKept(s, done, sid) && done.releasing == s.releasing && Nobody(done, sid)
  {
    var begun := Step(max, s, ReleaseBegin(sid));
    ReleaseAnswers(max, s, sid);
    ReleaseIndexed(max, s, ReleaseBegin(sid));
    if !s.cache[sid].persistent {
      ResumeAnswers(max, begun, Handle(sid, s.generation));
      assert s.releasing + multiset{Handle(sid, s.generation)} - multiset{Handle(sid, s.generation)} == s.releasing;
    }
  }
}
