/** The other direction of the orchestrator's index: an agent that holds a sandbox is indexed for it. */
module OrchestratorMirror {
  import opened Prelude
  import opened OrchestratorSpec
  import opened OrchestratorSafety

  /** The sandbox is in an agent's hands: cached with the agent, and no release of it waits. */
  predicate Held(s: State, sid: Sid) {
    sid in s.cache && Truthy(s.cache[sid].agent) && Handle(sid, s.generation) !in s.releasing
  }

  predicate HolderIndexed(s: State, sid: Sid)
    requires sid in s.cache && Truthy(s.cache[sid].agent)
  {
    var a := s.cache[sid].agent.value;
    a in s.agents && s.agents[a] == sid
  }

  ghost predicate HoldersIndexed(s: State) {
    (forall sid :: Held(s, sid) ==> HolderIndexed(s, sid)) && forall h :: h in s.releasing ==> h.generation <= s.generation
  }

  /** Index and cache mirror each other. */
  ghost predicate Mirrored(s: State) {
    IndexOk(s) && HoldersIndexed(s)
  }

  /** A session start hands out a sandbox that is not the one its agent is served with. */
  predicate HandsOut(max: nat, s: State, ev: Event)
    requires ev.SessionStart?
  {
    !HasServing(s, ev.agent) && (ev.pick.Some? || (|s.cache| < max && ev.created))
  }

  /** The agent holds a sandbox, and not this one. */
  predicate HoldsOther(s: State, agent: Option<string>, sid: Sid) {
    Truthy(agent) && agent.value in s.agents && s.agents[agent.value] != sid && Held(s, s.agents[agent.value])
  }

  /**
   * What a step finds when no holder loses its index entry: whoever is given a sandbox holds no other, whoever's entry is
   * removed by name holds no other, and no two pods carry one agent's label when the cache is rebuilt.
   */
  ghost predicate HolderGuard(max: nat, s: State, ev: Event) {
    match ev
    case SessionStart(agent, _, _, pick, newSid, _) =>
      HandsOut(max, s, ev) ==> !HoldsOther(s, agent, if pick.Some? then pick.value else newSid)
    case Claim(sid, name) => sid in s.cache && Free(s.cache[sid]) ==> !HoldsOther(s, Some(name), sid)
    case ReleaseBegin(sid) => sid in s.cache ==> !HoldsOther(s, s.cache[sid].agent, sid)
    case Destroy(sid) => sid in s.cache ==> !HoldsOther(s, s.cache[sid].agent, sid)
    case Rebuild(_, _) =>
      forall p, q :: p in s.pods && q in s.pods && Truthy(s.pods[p].agent) && s.pods[p].agent == s.pods[q].agent ==> p == q
    case _ => true
  }

  // ----- Single steps -----

  /** Giving a sandbox to an agent moves the agent's entry: the sandbox it had, if it held one, loses it. */
  lemma GivenMirrors(s: State, t: State, sid: Sid, agent: Option<string>)
    requires Mirrored(s) && t.generation == s.generation && t.releasing == s.releasing && sid in t.cache
    requires sid in s.cache ==> s.cache[sid].agent.None?
    requires t.cache[sid].agent == agent && t.cache.Keys == s.cache.Keys + {sid}
    requires forall x :: x in s.cache && x != sid ==> t.cache[x].agent == s.cache[x].agent
    requires t.agents == if Truthy(agent) then s.agents[agent.value := sid] else s.agents
    ensures HoldersIndexed(t) <==> !HoldsOther(s, agent, sid)
  {
    if HoldsOther(s, agent, sid) {
      var x := s.agents[agent.value];
      assert Held(t, x) && !HolderIndexed(t, x);
    } else {
      forall x | Held(t, x) ensures HolderIndexed(t, x) {
        if x != sid { assert Held(s, x) && HolderIndexed(s, x); }
      }
    }
  }

  /** Taking a sandbox from its agent, or out of the cache, removes the agent's entry by its name, whatever it says. */
  lemma TakenMirrors(s: State, t: State, sid: Sid)
    requires Mirrored(s) && sid in s.cache && t.generation == s.generation && !Held(t, sid)
    requires forall x :: x != sid ==> (Held(t, x) <==> Held(s, x)) && (x in t.cache && x in s.cache ==> t.cache[x].agent == s.cache[x].agent)
    requires t.agents == Popped(s.agents, s.cache[sid].agent) && forall h :: h in t.releasing ==> h.generation <= t.generation
    ensures HoldersIndexed(t) <==> !HoldsOther(s, s.cache[sid].agent, sid)
  {
    if HoldsOther(s, s.cache[sid].agent, sid) {
      var x := s.agents[s.cache[sid].agent.value];
      assert Held(t, x) && !HolderIndexed(t, x);
    } else {
      forall x | Held(t, x) ensures HolderIndexed(t, x) {
        assert Held(s, x) && HolderIndexed(s, x);
      }
    }
  }

  lemma HandedMirrors(s: State, base: State, sid: Sid, e: Entry, agent: Option<string>)
    requires Mirrored(s) && base == s.(pods := base.pods) && (sid in s.cache ==> s.cache[sid].agent.None?)
    ensures HoldersIndexed(Handed(base, sid, e, agent)) <==> !HoldsOther(s, agent, sid)
  {
    hide Labelled, Mirrored, HoldersIndexed, HoldsOther;
    GivenMirrors(s, Handed(base, sid, e, agent), sid, agent);
  }

  lemma StartMirrors(max: nat, s: State, ev: Event)
    requires Mirrored(s) && ev.SessionStart? && Possible(s, ev)
    ensures HoldersIndexed(Step(max, s, ev)) <==> HolderGuard(max, s, ev)
  {
    hide Labelled, Mirrored, HoldersIndexed, HoldsOther, HasServing, Handed;
    if !HandsOut(max, s, ev) {
      MirroredHolds(s);
    } else if ev.pick.Some? {
      HandedMirrors(s, s, ev.pick.value, s.cache[ev.pick.value], ev.agent);
    } else {
      HandedMirrors(s, s.(pods := s.pods[ev.newSid := Pod(None, ev.os, ev.persistent)]), ev.newSid,
                    Entry(ev.agent, ev.os, ev.persistent, Starting), ev.agent);
    }
  }

  lemma MirroredHolds(s: State)
    requires Mirrored(s)
    ensures HoldersIndexed(s)
  {
  }

  lemma ClaimMirrors(max: nat, s: State, sid: Sid, name: string)
    requires Mirrored(s) && name != ""
    ensures HoldersIndexed(Step(max, s, Claim(sid, name))) <==> HolderGuard(max, s, Claim(sid, name))
  {
    hide Labelled, Mirrored, HoldersIndexed, HoldsOther;
    if sid in s.cache && Free(s.cache[sid]) {
      GivenMirrors(s, Step(max, s, Claim(sid, name)), sid, Some(name));
    } else {
      MirroredHolds(s);
    }
  }

  lemma TakeMirrors(max: nat, s: State, ev: Event)
    requires Mirrored(s) && (ev.ReleaseBegin? || ev.Destroy?)
    ensures HoldersIndexed(Step(max, s, ev)) <==> HolderGuard(max, s, ev)
  {
    hide Labelled, HoldsOther, Popped, IndexOk;
    if ev.sid in s.cache { TakenMirrors(s, Step(max, s, ev), ev.sid); }
  }

  lemma RebuildMirrors(max: nat, s: State, ev: Event)
    requires Mirrored(s) && ev.Rebuild? && Possible(s, ev)
    ensures HoldersIndexed(Step(max, s, ev)) <==> HolderGuard(max, s, ev)
  {
    hide RebuiltAgents;
    var t := Step(max, s, ev);
    RebuiltAgentsAre(s.pods, ev.order);
    assert forall sid :: sid in s.pods ==> t.cache[sid].agent == s.pods[sid].agent && Handle(sid, t.generation) !in t.releasing;
    assert forall sid :: sid in s.pods && Truthy(s.pods[sid].agent) ==>
      s.pods[sid].agent.value in t.agents && s.pods[t.agents[s.pods[sid].agent.value]].agent == s.pods[sid].agent;
    if !HolderGuard(max, s, ev) {
      var p, q :| p in s.pods && q in s.pods && Truthy(s.pods[p].agent) && s.pods[p].agent == s.pods[q].agent && p != q;
      assert Held(t, p) && Held(t, q);
      assert !(HolderIndexed(t, p) && HolderIndexed(t, q));
    }
  }

  lemma ResumeMirrors(max: nat, s: State, h: Handle)
    requires Mirrored(s) && h in s.releasing
    ensures HoldersIndexed(Step(max, s, ReleaseResume(h)))
  {
    hide Labelled, IndexOk, HolderIndexed;
    var t := Step(max, s, ReleaseResume(h));
    forall x | Held(t, x) ensures HolderIndexed(t, x) {
      assert Held(s, x) && HolderIndexed(s, x);
      HolderSame(s, t, x);
    }
  }

  lemma HolderSame(s: State, t: State, x: Sid)
    requires x in s.cache && Truthy(s.cache[x].agent) && x in t.cache && t.cache[x].agent == s.cache[x].agent && t.agents == s.agents
    ensures HolderIndexed(t, x) <==> HolderIndexed(s, x)
  {
  }

  lemma EndMirrors(max: nat, s: State, name: string)
    requires Mirrored(s)
    ensures HoldersIndexed(Step(max, s, SessionEnd(name)))
  {
    hide Labelled;
    var t := Step(max, s, SessionEnd(name));
    forall x | Held(t, x) ensures HolderIndexed(t, x) {
      assert Held(s, x) && HolderIndexed(s, x);
    }
  }

  lemma OthersMirror(max: nat, s: State, ev: Event)
    requires ev.Create? || ev.SetStatus? || ev.SetPersistent?
    requires Mirrored(s) && Possible(s, ev)
    ensures HoldersIndexed(Step(max, s, ev))
  {
    hide IndexOk, HolderIndexed;
    var t := Step(max, s, ev);
    forall x | Held(t, x) ensures HolderIndexed(t, x) {
      assert Held(s, x) && HolderIndexed(s, x);
      HolderSame(s, t, x);
    }
  }

  /**
   * Where index and cache mirror each other, a step keeps that if and only if it is not a resuming release that meets
   * somebody, and it finds what the guard of holders says.
   */
  lemma StepMirrorExact(max: nat, s: State, ev: Event)
    requires Mirrored(s) && Possible(s, ev) && NamedClaim(ev)
    ensures Mirrored(Step(max, s, ev)) <==> MeetsNobody(s, ev) && HolderGuard(max, s, ev)
  {
    hide IndexOk, HoldersIndexed, Step, HolderGuard, MeetsNobody, Possible;
    StepIndexExact(max, s, ev);
    match ev
    case SessionStart(_, _, _, _, _, _) => StartMirrors(max, s, ev);
    case Claim(sid, name) => ClaimMirrors(max, s, sid, name);
    case ReleaseBegin(_) => TakeMirrors(max, s, ev);
    case Destroy(_) => TakeMirrors(max, s, ev);
    case Rebuild(_, _) => RebuildMirrors(max, s, ev);
    case SessionEnd(name) => EndMirrors(max, s, name); OthersGuarded(max, s, ev);
    case ReleaseResume(h) => ResumePossible(s, h); ResumeMirrors(max, s, h); OthersGuarded(max, s, ev);
    case _ => OthersMirror(max, s, ev); OthersGuarded(max, s, ev);
  }

  lemma ResumePossible(s: State, h: Handle)
    requires Possible(s, ReleaseResume(h))
    ensures h in s.releasing
  {
  }

  lemma OthersGuarded(max: nat, s: State, ev: Event)
    requires ev.Create? || ev.SessionEnd? || ev.ReleaseResume? || ev.SetStatus? || ev.SetPersistent?
    ensures HolderGuard(max, s, ev)
  {
  }

  // ----- Whole runs -----

  ghost predicate AlwaysMirrored(max: nat, s0: State, events: seq<Event>) {
    Mirrored(After(max, s0, events)) && (events != [] ==> AlwaysMirrored(max, s0, events[..|events| - 1]))
  }

  /** Every step of the run that can happen finds what it must. */
  ghost predicate MirrorGuarded(max: nat, s0: State, events: seq<Event>) {
    events == [] || (var s, ev := After(max, s0, events[..|events| - 1]), events[|events| - 1];
      MirrorGuarded(max, s0, events[..|events| - 1]) && (Possible(s, ev) ==> MeetsNobody(s, ev) && HolderGuard(max, s, ev)))
  }

  /** In every interleaving index and cache mirror each other throughout exactly when every step finds what it must. */
  lemma {:induction false} RunMirrorExact(max: nat, s0: State, events: seq<Event>)
    requires Mirrored(s0) && forall ev :: ev in events ==> NamedClaim(ev)
    ensures AlwaysMirrored(max, s0, events) <==> MirrorGuarded(max, s0, events)
  {
    if events != [] {
      hide Mirrored, Step, Possible, MeetsNobody, HolderGuard, NamedClaim;
      var init, ev := events[..|events| - 1], events[|events| - 1];
      assert ev in events && forall x :: x in init ==> x in events;
      RunMirrorExact(max, s0, init);
      MirroredNow(max, s0, init);
      var s := After(max, s0, init);
      if Mirrored(s) && Possible(s, ev) { StepMirrorExact(max, s, ev); }
    }
  }

  lemma MirroredNow(max: nat, s0: State, events: seq<Event>)
    ensures AlwaysMirrored(max, s0, events) ==> Mirrored(After(max, s0, events))
  {
  }

  // ----- A sandbox that its agent is not indexed for -----

  const NOTHING_YET := State(map[], map[], map[], 0, multiset{})

  /**
   * The agent's sandbox x becomes unhealthy, a session start gives it a second one, y, and the first is destroyed: y is cached
   * with the agent, which is indexed for nothing, and the index still says nothing wrong.
   */
  lemma SecondSandboxOrphaned(max: nat, a: string, os: string, x: Sid, y: Sid)
    requires max >= 2 && a != "" && x != y
    ensures var first, second := SessionStart(Some(a), os, false, None, x, true), SessionStart(Some(a), os, false, None, y, true);
      var s := After(max, NOTHING_YET, [first, SetStatus(Handle(x, 0), Unhealthy), second, Destroy(x)]);
      IndexOk(s) && Held(s, y) && s.cache[y].agent == Some(a) && a !in s.agents && !Mirrored(s)
  {
    var first, second := SessionStart(Some(a), os, false, None, x, true), SessionStart(Some(a), os, false, None, y, true);
    var sick := SetStatus(Handle(x, 0), Unhealthy);
    hide Step, Possible;
    assert [] + [first] == [first] && [first] + [sick] == [first, sick] && [first, sick] + [second] == [first, sick, second];
    assert [first, sick, second] + [Destroy(x)] == [first, sick, second, Destroy(x)];
    assert After(max, NOTHING_YET, []) == NOTHING_YET;
    hide After;
    FirstStart(max, a, os, x);
    AfterNext(max, NOTHING_YET, [], first);
    AfterNext(max, NOTHING_YET, [first], sick);
    SecondStart(max, a, os, x, y);
    AfterNext(max, NOTHING_YET, [first, sick], second);
    AfterNext(max, NOTHING_YET, [first, sick, second], Destroy(x));
  }

  /** One sandbox, in the agent's hands. */
  function One(a: string, os: string, x: Sid, status: Status): State {
    State(map[x := Entry(Some(a), os, false, status)], map[a := x], map[x := Pod(Some(a), os, false)], 0, multiset{})
  }

  lemma FirstStart(max: nat, a: string, os: string, x: Sid)
    requires max >= 2 && a != ""
    ensures var first, sick := SessionStart(Some(a), os, false, None, x, true), SetStatus(Handle(x, 0), Unhealthy);
      Possible(NOTHING_YET, first) && Step(max, NOTHING_YET, first) == One(a, os, x, Assigned)
      && Possible(One(a, os, x, Assigned), sick) && Step(max, One(a, os, x, Assigned), sick) == One(a, os, x, Unhealthy)
  {
  }

  lemma SecondStart(max: nat, a: string, os: string, x: Sid, y: Sid)
    requires max >= 2 && a != "" && x != y
    ensures var s, second := One(a, os, x, Unhealthy), SessionStart(Some(a), os, false, None, y, true);
      Possible(s, second) && Possible(Step(max, s, second), Destroy(x))
      && var t := Step(max, Step(max, s, second), Destroy(x));
         IndexOk(t) && Held(t, y) && t.cache[y].agent == Some(a) && a !in t.agents && !Mirrored(t)
  {
    var s := One(a, os, x, Unhealthy);
    assert !HasServing(s, Some(a)) && |s.cache| == 1;
    var t := Step(max, Step(max, s, SessionStart(Some(a), os, false, None, y, true)), Destroy(x));
    assert t.agents == map[] && Held(t, y) && !HolderIndexed(t, y);
  }

  lemma AfterNext(max: nat, s0: State, events: seq<Event>, ev: Event)
    requires Possible(After(max, s0, events), ev)
    ensures After(max, s0, events + [ev]) == Step(max, After(max, s0, events), ev)
  {
    assert (events + [ev])[..|events|] == events;
  }
}
