/** What the orchestrator's handlers keep when they interleave, and where they do not. */
module OrchestratorSafety {
  import opened Prelude
  import opened OrchestratorSpec

  lemma {:induction false} RebuiltAgentsAre(pods: map<Sid, Pod>, order: seq<Sid>)
    requires forall i :: 0 <= i < |order| ==> order[i] in pods
    ensures var agents := RebuiltAgents(pods, order);
      (forall a :: a in agents ==> a != "" && agents[a] in pods && pods[agents[a]].agent == Some(a))
      && forall i :: 0 <= i < |order| && Truthy(pods[order[i]].agent) ==> pods[order[i]].agent.value in agents
  {
    if order != [] {
      var n := |order| - 1;
      var rest, agents := RebuiltAgents(pods, order[..n]), RebuiltAgents(pods, order);
      assert forall i :: 0 <= i < n ==> order[..n][i] == order[i];
      RebuiltAgentsAre(pods, order[..n]);
      var agent := pods[order[n]].agent;
      assert agents == if Truthy(agent) then rest[agent.value := order[n]] else rest;
      forall i | 0 <= i < |order| && Truthy(pods[order[i]].agent) ensures pods[order[i]].agent.value in agents {
        if i < n { assert pods[order[..n][i]].agent.value in rest; }
      }
    }
  }

  // ----- One step -----

  lemma HandedIndexed(s: State, sid: Sid, e: Entry, agent: Option<string>)
    requires IndexOk(s) && Nobody(s, sid)
    ensures IndexOk(Handed(s, sid, e, agent))
  {
  }

  lemma StartIndexed(max: nat, s: State, ev: Event)
    requires ev.SessionStart? && IndexOk(s) && Possible(s, ev)
    ensures IndexOk(Step(max, s, ev))
  {
    hide Handed;
    if !HasServing(s, ev.agent) {
      if ev.pick.Some? {
        HandedIndexed(s, ev.pick.value, s.cache[ev.pick.value], ev.agent);
      } else if |s.cache| < max && ev.created {
        HandedIndexed(s.(pods := s.pods[ev.newSid := Pod(None, ev.os, ev.persistent)]), ev.newSid,
                      Entry(ev.agent, ev.os, ev.persistent, Starting), ev.agent);
      }
    }
  }

  lemma RemovalIndexed(max: nat, s: State, ev: Event)
    requires (ev.SessionEnd? || ev.Destroy?) && IndexOk(s)
    ensures IndexOk(Step(max, s, ev))
  {
    hide Labelled;
  }

  lemma ReleaseIndexed(max: nat, s: State, ev: Event)
    requires ev.ReleaseBegin? && IndexOk(s)
    ensures IndexOk(Step(max, s, ev))
    ensures ev.sid in s.cache ==> Nobody(Step(max, s, ev), ev.sid)
  {
    hide Labelled;
  }

  lemma RebuildIndexed(max: nat, s: State, ev: Event)
    requires ev.Rebuild? && Possible(s, ev)
    ensures IndexOk(Step(max, s, ev))
  {
    RebuiltAgentsAre(s.pods, ev.order);
    var t := Step(max, s, ev);
    assert forall sid :: sid in s.pods ==> sid in t.cache && t.cache[sid].agent == s.pods[sid].agent;
  }

  lemma OthersIndexed(max: nat, s: State, ev: Event)
    requires ev.Create? || ev.Claim? || ev.SetStatus? || ev.SetPersistent?
    requires IndexOk(s) && Possible(s, ev) && NamedClaim(ev)
    ensures IndexOk(Step(max, s, ev))
  {
    hide Labelled;
  }

  /** A release that resumes keeps the index exactly when its entry is stale or nobody is indexed for its sandbox. */
  lemma ResumeExact(max: nat, s: State, h: Handle)
    requires IndexOk(s) && h in s.releasing
    ensures IndexOk(Step(max, s, ReleaseResume(h))) <==> (Live(s, h) ==> Nobody(s, h.sid))
  {
    hide Labelled;
    var t := Step(max, s, ReleaseResume(h));
    if a :| a in s.agents && s.agents[a] == h.sid {
      assert a in t.agents && t.agents[a] == h.sid;
    }
  }

  /** From a right index every possible step leaves a right index, except a release that resumes and meets somebody. */
  lemma StepIndexExact(max: nat, s: State, ev: Event)
    requires IndexOk(s) && Possible(s, ev) && NamedClaim(ev)
    ensures IndexOk(Step(max, s, ev)) <==> MeetsNobody(s, ev)
  {
    hide IndexOk, Step, Nobody;
    match ev
    case SessionStart(_, _, _, _, _, _) => StartIndexed(max, s, ev);
    case SessionEnd(_) => RemovalIndexed(max, s, ev);
    case Destroy(_) => RemovalIndexed(max, s, ev);
    case ReleaseBegin(_) => ReleaseIndexed(max, s, ev);
    case ReleaseResume(h) => ResumeExact(max, s, h);
    case Rebuild(_, _) => RebuildIndexed(max, s, ev);
    case Create(_, _, _) => OthersIndexed(max, s, ev);
    case Claim(_, _) => OthersIndexed(max, s, ev);
    case SetStatus(_, _) => OthersIndexed(max, s, ev);
    case SetPersistent(_, _) => OthersIndexed(max, s, ev);
  }

  // ----- Whole runs -----

  /** In every interleaving of handlers, the index is right throughout exactly when every release that resumes meets nobody. */
  lemma {:induction false} RunIndexExact(max: nat, s0: State, events: seq<Event>)
    requires IndexOk(s0) && forall ev :: ev in events ==> NamedClaim(ev)
    ensures AlwaysIndexed(max, s0, events) <==> ResumesMeetNobody(max, s0, events)
  {
    if events != [] {
      hide IndexOk, Step, MeetsNobody, Possible, NamedClaim;
      var init, ev := events[..|events| - 1], events[|events| - 1];
      assert ev in events && forall x :: x in init ==> x in events;
      RunIndexExact(max, s0, init);
      AlwaysNow(max, s0, init);
      if Possible(After(max, s0, init), ev) && IndexOk(After(max, s0, init)) {
        StepIndexExact(max, After(max, s0, init), ev);
      }
    }
  }

  lemma AlwaysNow(max: nat, s0: State, events: seq<Event>)
    ensures AlwaysIndexed(max, s0, events) ==> IndexOk(After(max, s0, events))
  {
  }

  /** A waiting release stays safe through every step that is not another release of its sandbox. */
  lemma StepKeepsSafe(max: nat, s: State, ev: Event, h: Handle)
    requires HandleSafe(s, h) && Possible(s, ev) && ev != ReleaseBegin(h.sid)
    ensures HandleSafe(Step(max, s, ev), h)
  {
    hide Labelled;
    match ev
    case SessionStart(_, _, _, _, _, _) => StartKeepsSafe(max, s, ev, h);
    case ReleaseResume(g) => ResumeKeepsSafe(max, s, g, h);
    case _ =>
  }

  lemma StartKeepsSafe(max: nat, s: State, ev: Event, h: Handle)
    requires ev.SessionStart? && HandleSafe(s, h) && Possible(s, ev)
    ensures HandleSafe(Step(max, s, ev), h)
  {
    hide Labelled, HasServing;
  }

  lemma ResumeKeepsSafe(max: nat, s: State, g: Handle, h: Handle)
    requires g in s.releasing && HandleSafe(s, h)
    ensures HandleSafe(Step(max, s, ReleaseResume(g)), h)
  {
    hide Labelled;
    assert (s.releasing - multiset{g})[h] == if g == h then s.releasing[h] - 1 else s.releasing[h];
  }

  lemma ReleaseBeginSafe(max: nat, s: State, sid: Sid)
    requires IndexOk(s) && SafeRelease(s, sid) && forall h :: h in s.releasing ==> HandleSafe(s, h)
    ensures forall h :: h in Step(max, s, ReleaseBegin(sid)).releasing ==> HandleSafe(Step(max, s, ReleaseBegin(sid)), h)
  {
    hide Labelled;
  }

  lemma StepKeepsGood(max: nat, s: State, ev: Event)
    requires Good(s) && Possible(s, ev) && Disciplined(s, ev)
    ensures Good(Step(max, s, ev)) && MeetsNobody(s, ev)
  {
    var t := Step(max, s, ev);
    assert MeetsNobody(s, ev);
    StepIndexExact(max, s, ev);
    if ev.ReleaseBegin? {
      ReleaseBeginSafe(max, s, ev.sid);
    } else {
      hide Step, HandleSafe, IndexOk, Possible, MeetsNobody;
      forall h | h in t.releasing ensures HandleSafe(t, h) {
        StillWaiting(max, s, ev, h);
        StepKeepsSafe(max, s, ev, h);
      }
    }
  }

  lemma StillWaiting(max: nat, s: State, ev: Event, h: Handle)
    requires Possible(s, ev) && !ev.ReleaseBegin? && h in Step(max, s, ev).releasing
    ensures h in s.releasing
  {
  }

  /** When every release is one its caller could see to be safe, the index is always right. */
  lemma {:induction false} RunIndexed(max: nat, s0: State, events: seq<Event>)
    requires Good(s0) && DisciplinedRun(max, s0, events)
    ensures Good(After(max, s0, events)) && AlwaysIndexed(max, s0, events)
  {
    GoodIsIndexed(After(max, s0, events));
    if events != [] {
      hide Good, Step, Disciplined, Possible;
      var init := events[..|events| - 1];
      RunIndexed(max, s0, init);
      if Possible(After(max, s0, init), events[|events| - 1]) {
        StepKeepsGood(max, After(max, s0, init), events[|events| - 1]);
      }
      GoodIsIndexed(After(max, s0, events));
    }
  }

  lemma GoodIsIndexed(s: State)
    ensures Good(s) ==> IndexOk(s)
  {
  }

  // ----- Which releases are safe -----

  lemma {:induction false} SafeRunMeetsNobody(max: nat, s: State, events: seq<Event>, h: Handle)
    requires HandleSafe(s, h) && Quiet(events, h.sid)
    ensures HandleMeetsNobody(max, s, events, h) && HandleSafe(After(max, s, events), h)
  {
    if events != [] {
      var init, ev := events[..|events| - 1], events[|events| - 1];
      assert ev in events && forall x :: x in init ==> x in events;
      SafeRunMeetsNobody(max, s, init, h);
      SafeMeetsNobody(After(max, s, init), h);
      hide HandleSafe, Step, Possible, MeetsNobody;
      if Possible(After(max, s, init), ev) { StepKeepsSafe(max, After(max, s, init), ev, h); }
    }
  }

  lemma SafeMeetsNobody(s: State, h: Handle)
    requires HandleSafe(s, h)
    ensures Possible(s, ReleaseResume(h)) ==> MeetsNobody(s, ReleaseResume(h))
  {
  }

  /** A claim of a free sandbox, followed by the end of a release that was waiting: that release meets somebody. */
  lemma ClaimThenResume(max: nat, s: State, sid: Sid, name: string)
    requires sid in s.cache && Free(s.cache[sid]) && Handle(sid, s.generation) in s.releasing
    ensures var h := Handle(sid, s.generation);
      var claimed := Step(max, s, Claim(sid, name));
      Possible(claimed, ReleaseResume(h)) && !MeetsNobody(claimed, ReleaseResume(h))
      && !Indexed(Step(max, claimed, ReleaseResume(h)))
  {
    var claimed := Step(max, s, Claim(sid, name));
    assert name in claimed.agents && claimed.agents[name] == sid;
    assert name in Step(max, claimed, ReleaseResume(Handle(sid, s.generation))).agents;
  }

  lemma ReleaseWaits(max: nat, s: State, sid: Sid)
    requires sid in s.cache && !s.cache[sid].persistent
    ensures var t := Step(max, s, ReleaseBegin(sid));
      t.cache == s.cache && t.generation == s.generation && t.releasing == s.releasing + multiset{Handle(sid, s.generation)}
  {
  }

  lemma ResumeFrees(max: nat, s: State, h: Handle)
    requires h in s.releasing && Live(s, h)
    ensures var t := Step(max, s, ReleaseResume(h));
      h.sid in t.cache && Free(t.cache[h.sid]) && t.generation == s.generation && t.releasing == s.releasing - multiset{h}
  {
  }

  lemma ThreeSteps(max: nat, s: State, a: Event, b: Event, h: Handle)
    requires Possible(s, a) && Possible(Step(max, s, a), b)
    ensures var t := Step(max, Step(max, s, a), b);
      Possible(t, ReleaseResume(h)) && HandleMeetsNobody(max, s, [a, b, ReleaseResume(h)], h) ==> MeetsNobody(t, ReleaseResume(h))
  {
    hide Step, Possible, MeetsNobody;
    var all := [a, b, ReleaseResume(h)];
    assert all[..2] == [a, b] && all[..2][..1] == [a] && all[..2][..1][..0] == [];
    assert After(max, s, all[..2][..1][..0]) == s;
    assert After(max, s, all[..2][..1]) == Step(max, s, a);
    assert After(max, s, all[..2]) == Step(max, Step(max, s, a), b);
  }

  /** With an entry that has no agent, a status change and a claim bring the release to harm. */
  lemma AgentlessReleaseHarms(max: nat, s: State, sid: Sid, name: string)
    requires name != "" && sid in s.cache && s.cache[sid].agent.None? && Handle(sid, s.generation) in s.releasing
    ensures !SafeForever(max, s, Handle(sid, s.generation))
  {
    var h := Handle(sid, s.generation);
    var a, b := SetStatus(h, Idle), Claim(sid, name);
    var idle := Step(max, s, a);
    assert Free(idle.cache[sid]) && idle.releasing == s.releasing && idle.generation == s.generation;
    ClaimThenResume(max, idle, sid, name);
    ThreeSteps(max, s, a, b, h);
    assert Quiet([a, b, ReleaseResume(h)], sid);
  }

  /** With two releases of the sandbox waiting, the end of one and a claim bring the other to harm. */
  lemma OverlappingReleaseHarms(max: nat, s: State, sid: Sid, name: string)
    requires name != "" && sid in s.cache && s.releasing[Handle(sid, s.generation)] >= 2
    ensures !SafeForever(max, s, Handle(sid, s.generation))
  {
    hide Step, Indexed, MeetsNobody, HandleMeetsNobody;
    var h := Handle(sid, s.generation);
    var a, b := ReleaseResume(h), Claim(sid, name);
    ResumeFrees(max, s, h);
    var freed := Step(max, s, a);
    assert h in freed.releasing;
    ClaimThenResume(max, freed, sid, name);
    ThreeSteps(max, s, a, b, h);
    assert Quiet([a, b, ReleaseResume(h)], sid);
  }

  /**
   * A release that has to wait is safe in every continuation without another release of its sandbox exactly when the
   * sandbox has an agent and no release of it was waiting: both can be seen when release is called.
   */
  lemma ReleaseSafeExact(max: nat, s: State, sid: Sid)
    requires IndexOk(s) && sid in s.cache && !s.cache[sid].persistent
    ensures SafeForever(max, Step(max, s, ReleaseBegin(sid)), Handle(sid, s.generation)) <==> SafeRelease(s, sid)
  {
    hide Step, IndexOk, HandleMeetsNobody, Quiet;
    var h, t := Handle(sid, s.generation), Step(max, s, ReleaseBegin(sid));
    ReleaseWaits(max, s, sid);
    if SafeRelease(s, sid) {
      ReleaseIndexed(max, s, ReleaseBegin(sid));
      assert HandleSafe(t, h);
      forall events: seq<Event> | Quiet(events, h.sid) ensures HandleMeetsNobody(max, t, events, h) {
        SafeRunMeetsNobody(max, t, events, h);
      }
    } else if s.cache[sid].agent.None? {
      AgentlessReleaseHarms(max, t, sid, "a");
    } else {
      OverlappingReleaseHarms(max, t, sid, "a");
    }
  }

  /** Two agents are never indexed for one sandbox. */
  lemma OneAgentEach(s: State, a: string, b: string)
    requires Indexed(s) && a in s.agents && b in s.agents && s.agents[a] == s.agents[b]
    ensures a == b
  {
  }

  /** Releasing an idle sandbox while it is claimed leaves the new agent indexed for a sandbox without an agent. */
  lemma IdleReleaseBreaksIndex(max: nat, s: State, sid: Sid, name: string)
    requires sid in s.cache && Free(s.cache[sid]) && !s.cache[sid].persistent
    ensures var h := Handle(sid, s.generation);
      var s2 := Step(max, Step(max, s, ReleaseBegin(sid)), Claim(sid, name));
      Possible(s2, ReleaseResume(h)) && !Indexed(Step(max, s2, ReleaseResume(h)))
  {
    ReleaseWaits(max, s, sid);
    ClaimThenResume(max, Step(max, s, ReleaseBegin(sid)), sid, name);
  }

  /** Two overlapping releases of one sandbox, with a claim between their ends, do the same. */
  lemma OverlappingReleasesBreakIndex(max: nat, s: State, sid: Sid, name: string)
    requires sid in s.cache && Truthy(s.cache[sid].agent) && !s.cache[sid].persistent
    ensures var h := Handle(sid, s.generation);
      var s2 := Step(max, Step(max, s, ReleaseBegin(sid)), ReleaseBegin(sid));
      Possible(s2, ReleaseResume(h)) &&
      var s4 := Step(max, Step(max, s2, ReleaseResume(h)), Claim(sid, name));
      Possible(s4, ReleaseResume(h)) && !Indexed(Step(max, s4, ReleaseResume(h)))
  {
    hide Step, Free, Indexed, Truthy;
    var h := Handle(sid, s.generation);
    var s1 := Step(max, s, ReleaseBegin(sid));
    ReleaseWaits(max, s, sid);
    ReleaseWaits(max, s1, sid);
    var s2 := Step(max, s1, ReleaseBegin(sid));
    assert s2.releasing[h] >= 2;
    ResumeFrees(max, s2, h);
    ClaimThenResume(max, Step(max, s2, ReleaseResume(h)), sid, name);
  }

  // ----- What holds of every step, disciplined or not -----

  lemma StartKeepsHolder(max: nat, s: State, ev: Event, sid: Sid)
    requires ev.SessionStart? && Possible(s, ev) && sid in s.cache && s.cache[sid].agent.Some?
    ensures sid in Step(max, s, ev).cache && Step(max, s, ev).cache[sid] == s.cache[sid]
  {
    hide HasServing;
  }

  lemma CreateKeepsHolder(max: nat, s: State, ev: Event, sid: Sid)
    requires ev.Create? && Possible(s, ev) && sid in s.cache
    ensures sid in Step(max, s, ev).cache && Step(max, s, ev).cache[sid] == s.cache[sid]
  {
  }

  lemma OthersKeepHolder(max: nat, s: State, ev: Event, sid: Sid)
    requires !ev.Rebuild? && !ev.SessionStart? && !ev.Create? && Possible(s, ev) && sid in s.cache && s.cache[sid].agent.Some?
    ensures sid in Step(max, s, ev).cache ==>
      Step(max, s, ev).cache[sid].agent == s.cache[sid].agent || Step(max, s, ev).cache[sid].agent == None
  {
    hide Labelled, Popped;
  }

  /** Where labels and cache agree, a rebuild leaves every held sandbox with its holder. */
  lemma RebuildKeepsHolder(max: nat, s: State, ev: Event, sid: Sid)
    requires ev.Rebuild? && Possible(s, ev) && LabelsAgree(s) && sid in s.cache && Truthy(s.cache[sid].agent)
    ensures sid in Step(max, s, ev).cache && Step(max, s, ev).cache[sid].agent == s.cache[sid].agent
  {
  }

  /**
   * Every step keeps labels and cache in agreement, except a release that resumes after a rebuild on a sandbox that is
   * held again: it clears the label and leaves the cache.
   */
  lemma LabelsAgreeExact(max: nat, s: State, ev: Event)
    requires LabelsAgree(s) && Possible(s, ev)
    ensures LabelsAgree(Step(max, s, ev)) <==> !ClearsHeldLabel(s, ev)
  {
    match ev
    case SessionStart(_, _, _, _, _, _) => StartAgrees(max, s, ev);
    case SessionEnd(_) => EndAgrees(max, s, ev);
    case ReleaseResume(h) => ResumeAgrees(max, s, h);
    case _ => OthersAgree(max, s, ev);
  }

  lemma StartAgrees(max: nat, s: State, ev: Event)
    requires ev.SessionStart? && LabelsAgree(s) && Possible(s, ev)
    ensures LabelsAgree(Step(max, s, ev))
  {
    hide HasServing;
  }

  lemma EndAgrees(max: nat, s: State, ev: Event)
    requires ev.SessionEnd? && LabelsAgree(s)
    ensures LabelsAgree(Step(max, s, ev))
  {
  }

  lemma ResumeAgrees(max: nat, s: State, h: Handle)
    requires LabelsAgree(s) && h in s.releasing
    ensures LabelsAgree(Step(max, s, ReleaseResume(h))) <==> !ClearsHeldLabel(s, ReleaseResume(h))
  {
    var t := Step(max, s, ReleaseResume(h));
    if ClearsHeldLabel(s, ReleaseResume(h)) {
      assert h.sid in t.cache && t.pods[h.sid].agent == Some("");
    }
  }

  lemma OthersAgree(max: nat, s: State, ev: Event)
    requires !ev.SessionStart? && !ev.SessionEnd? && !ev.ReleaseResume? && LabelsAgree(s) && Possible(s, ev)
    ensures LabelsAgree(Step(max, s, ev))
  {
  }

  /**
   * A handler never turns one agent's sandbox straight into another's: it has to be released first. A rebuild, which
   * follows the labels, does not either as long as labels and cache agree.
   */
  lemma NeverReassigned(max: nat, s: State, ev: Event, sid: Sid)
    requires Possible(s, ev) && sid in s.cache && s.cache[sid].agent.Some?
    requires ev.Rebuild? ==> LabelsAgree(s) && Truthy(s.cache[sid].agent)
    ensures sid in Step(max, s, ev).cache ==>
      Step(max, s, ev).cache[sid].agent == s.cache[sid].agent || Step(max, s, ev).cache[sid].agent == None
  {
    hide Step, Possible;
    match ev
    case SessionStart(_, _, _, _, _, _) => StartKeepsHolder(max, s, ev, sid);
    case Create(_, _, _) => CreateKeepsHolder(max, s, ev, sid);
    case Rebuild(_, _) => RebuildKeepsHolder(max, s, ev, sid);
    case _ => OthersKeepHolder(max, s, ev, sid);
  }

  /** No handler takes the cache beyond the limit; only a rebuild, which counts the pods there are, can find more. */
  lemma CapacityKept(max: nat, s: State, ev: Event)
    requires Possible(s, ev) && !ev.Rebuild?
    ensures |Step(max, s, ev).cache| <= if |s.cache| <= max then max else |s.cache|
  {
    match ev
    case Create(sid, os, status) => Larger(s.cache, sid, Entry(None, os, false, status));
    case SessionStart(agent, os, persistent, pick, newSid, created) =>
      if pick.Some? {
        SameSize(s.cache, pick.value, s.cache[pick.value].(agent := agent, status := if Truthy(agent) then Assigned else s.cache[pick.value].status));
      } else {
        Larger(s.cache, newSid, Entry(agent, os, persistent, if Truthy(agent) then Assigned else Starting));
      }
    case SessionEnd(name) =>
      if name in s.agents && s.agents[name] in s.cache {
        var sid := s.agents[name];
        SameSize(s.cache, sid, s.cache[sid].(agent := None, status := Idle));
        Shrinks(s.cache, sid);
      }
    case Claim(sid, name) => if sid in s.cache { SameSize(s.cache, sid, s.cache[sid].(agent := Some(name), status := Assigned)); }
    case ReleaseBegin(sid) => if sid in s.cache { SameSize(s.cache, sid, s.cache[sid].(agent := None, status := Idle)); }
    case ReleaseResume(h) => if h.sid in s.cache { SameSize(s.cache, h.sid, s.cache[h.sid].(agent := None, status := Idle)); }
    case Destroy(sid) => if sid in s.cache { Shrinks(s.cache, sid); }
    case SetStatus(h, status) => if h.sid in s.cache { SameSize(s.cache, h.sid, s.cache[h.sid].(status := status)); }
    case SetPersistent(sid, persistent) => if sid in s.cache { SameSize(s.cache, sid, s.cache[sid].(persistent := persistent)); }
  }

  lemma Larger(cache: map<Sid, Entry>, sid: Sid, e: Entry)
    ensures |cache[sid := e]| <= |cache| + 1
  {
    assert cache[sid := e].Keys == cache.Keys + {sid};
  }

  lemma SameSize(cache: map<Sid, Entry>, sid: Sid, e: Entry)
    requires sid in cache
    ensures |cache[sid := e]| == |cache|
  {
    assert cache[sid := e].Keys == cache.Keys;
  }

  lemma Shrinks(cache: map<Sid, Entry>, sid: Sid)
    requires sid in cache
    ensures |cache - {sid}| < |cache|
  {
    assert (cache - {sid}).Keys == cache.Keys - {sid};
  }

  // ----- Rebuilding from labels -----

  /** After a rebuild a sandbox is free exactly when its pod runs and never carried an agent label. */
  lemma RebuiltFree(max: nat, s: State, ev: Event, sid: Sid)
    requires ev.Rebuild? && Possible(s, ev) && sid in s.pods
    ensures sid in Step(max, s, ev).cache
    ensures (Free(Step(max, s, ev).cache[sid]) <==> s.pods[sid].agent == None && (ev.statuses[sid] == Running || ev.statuses[sid] == Idle))
  {
  }

  /** A release leaves the label empty rather than absent: free before a rebuild, the sandbox is not free after it. */
  lemma ReleasedThenRebuilt(max: nat, s: State, h: Handle, ev: Event)
    requires h in s.releasing && h.generation == s.generation && h.sid in s.cache && h.sid in s.pods
    requires ev.Rebuild? && Possible(Step(max, s, ReleaseResume(h)), ev)
    ensures var released := Step(max, s, ReleaseResume(h));
      Free(released.cache[h.sid]) && h.sid in Step(max, released, ev).cache && !Free(Step(max, released, ev).cache[h.sid])
  {
    var released := Step(max, s, ReleaseResume(h));
    assert released.pods[h.sid].agent == Some("");
    RebuiltFree(max, released, ev, h.sid);
  }
}
