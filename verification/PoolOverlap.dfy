/** What requests that overlap on a sandbox host do to each other. */
module PoolOverlap {
  import opened Prelude
  import opened BudgetSpec
  import opened BudgetSafety
  import opened Pool
  import opened PoolInvariant
  import opened PoolRequests
  import opened PoolAccounts
  import opened PoolRequestsSafety
  import opened PoolDiscipline

  lemma Extended(c: Config, vm: bool, s: System, run: seq<Event>, ev: Event)
    ensures Reached(c, vm, s, run + [ev]) == Next(c, vm, Reached(c, vm, s, run), ev)
    ensures PossibleRun(c, vm, s, run + [ev]) <==> PossibleRun(c, vm, s, run) && Possible(Reached(c, vm, s, run), ev)
    ensures GuardedRun(c, vm, s, run + [ev]) <==> GuardedRun(c, vm, s, run) && Guard(c, vm, Reached(c, vm, s, run), ev)
    ensures AlwaysBalanced(c, vm, s, run + [ev])
      <==> AlwaysBalanced(c, vm, s, run) && Balanced(c, Next(c, vm, Reached(c, vm, s, run), ev))
  {
    hide Next, Possible, Guard, Balanced;
    assert (run + [ev])[..|run|] == run;
  }

  lemma Two(c: Config, vm: bool, s: System, a: Event, b: Event)
    requires SaneCosts(c) && Traced(s) && Balanced(c, s) && Possible(s, a) && Possible(Next(c, vm, s, a), b)
    ensures PossibleRun(c, vm, s, [a, b])
    ensures AlwaysBalanced(c, vm, s, [a, b]) <==> Guard(c, vm, s, a) && Guard(c, vm, Next(c, vm, s, a), b)
  {
    hide Next, Possible, Guard, Balanced, Traced, SaneCosts;
    assert [] + [a] == [a] && [a] + [b] == [a, b];
    Extended(c, vm, s, [], a);
    Extended(c, vm, s, [a], b);
    RunExact(c, vm, s, [a, b]);
  }

  // ----- Two requests for one agent -----

  /**
   * Two session starts for an agent without a unit, the second before the first unit is there: neither finds anything wrong,
   * both create, and when both units are there two of them record the agent and the index holds one.
   */
  lemma OverlappingStarts(c: Config, vm: bool, s: System, agent: string, k: Kind, n: string, m: string, p: int, q: int, now: int)
    requires SaneCosts(c) && Traced(s) && Balanced(c, s) && agent != "" && agent !in s.host.agents
    requires !HasIdle(s.host.units, k) && (k.Desktop? ==> vm) && Fresh(s, n) && Fresh(s, m) && n != m
    requires p !in s.host.used && q !in s.host.used && p != q
    requires ReserveError(c, s.host.budget, k).None? && ReserveError(c, Charged(c, s.host.budget, k), k).None?
    ensures var first, second := SessionStart(agent, k, false, None, n, Some(p), now), SessionStart(agent, k, false, None, m, Some(q), now);
      var s1 := Next(c, vm, s, first);
      var s2 := Next(c, vm, s1, second);
      Possible(s, first) && Possible(s1, second) && Balanced(c, s2) && n in s2.pending && m in s2.pending
      && PossibleRun(c, vm, s2, [Finish(n, true, now), Finish(m, true, now)])
      && !AlwaysBalanced(c, vm, s2, [Finish(n, true, now), Finish(m, true, now)])
  {
    hide Balanced, ReserveError, Charged, Traced, HasIdle, SaneCosts, AgentsInStep;
    var first, second := SessionStart(agent, k, false, None, n, Some(p), now), SessionStart(agent, k, false, None, m, Some(q), now);
    var s1 := Next(c, vm, s, first);
    StepExact(c, vm, s, first);
    StepTraced(c, vm, s, first);
    StillFresh(s, s1, n, m);
    var s2 := Next(c, vm, s1, second);
    StepExact(c, vm, s1, second);
    StepTraced(c, vm, s1, second);
    TwoUnitsOneAgent(c, vm, s2, n, m, agent, now);
  }

  lemma StillFresh(s: System, t: System, n: string, m: string)
    requires Fresh(s, m) && n != m && t.host.units.Keys == s.host.units.Keys && t.gone == s.gone
    requires forall x :: x in t.pending ==> x in s.pending || x == n
    ensures Fresh(t, m)
  {
  }

  /** Two units on their way for one agent cannot both arrive. */
  lemma TwoUnitsOneAgent(c: Config, vm: bool, s: System, n: string, m: string, agent: string, now: int)
    requires SaneCosts(c) && Traced(s) && Balanced(c, s) && agent != "" && n in s.pending && m in s.pending && n != m
    requires s.pending[n].replacing.None? && s.pending[n].agent == Some(agent)
    requires s.pending[m].replacing.None? && s.pending[m].agent == Some(agent)
    ensures PossibleRun(c, vm, s, [Finish(n, true, now), Finish(m, true, now)])
    ensures !AlwaysBalanced(c, vm, s, [Finish(n, true, now), Finish(m, true, now)])
  {
    hide Balanced, Traced, SaneCosts;
    Two(c, vm, s, Finish(n, true, now), Finish(m, true, now));
  }

  /** The first request that does not find what it must puts the records out of balance. */
  lemma Unguarded(c: Config, vm: bool, s: System, run: seq<Event>, ev: Event)
    requires SaneCosts(c) && Traced(s) && Balanced(c, s) && PossibleRun(c, vm, s, run) && Possible(Reached(c, vm, s, run), ev)
    requires !Guard(c, vm, Reached(c, vm, s, run), ev)
    ensures PossibleRun(c, vm, s, run + [ev]) && !AlwaysBalanced(c, vm, s, run + [ev])
  {
    hide Next, Possible, Guard, Balanced, Traced, SaneCosts;
    Extended(c, vm, s, run, ev);
    RunExact(c, vm, s, run + [ev]);
  }

  lemma TwoSteps(c: Config, vm: bool, s: System, a: Event, b: Event)
    ensures Reached(c, vm, s, [a, b]) == Next(c, vm, Next(c, vm, s, a), b)
    ensures PossibleRun(c, vm, s, [a, b]) <==> Possible(s, a) && Possible(Next(c, vm, s, a), b)
    ensures Reached(c, vm, s, [a]) == Next(c, vm, s, a) && (PossibleRun(c, vm, s, [a]) <==> Possible(s, a))
  {
    hide Next, Possible;
    assert [] + [a] == [a] && [a] + [b] == [a, b];
    Extended(c, vm, s, [], a);
    Extended(c, vm, s, [a], b);
  }

  /** An agent whose session ends while its unit is converted, and that is given an idle one, has two when the conversion ends. */
  lemma EndedWhileConverted(c: Config, vm: bool, s: System, n: string, agent: string, other: string, k: Kind, newId: string, now: int)
    requires SaneCosts(c) && Traced(s) && Balanced(c, s) && n in s.pending && s.pending[n].agent == Some(agent) && agent != ""
    requires agent in s.host.agents && s.pending[n].replacing == Some(s.host.agents[agent]) && s.pending[n].kind.Desktop?
    requires other in s.host.units && other != s.host.agents[agent]
    requires s.host.units[other].status.Idle? && s.host.units[other].kind == k && Fresh(s, newId)
    ensures var run := [SessionEnd(agent, now), SessionStart(agent, k, false, Some(other), newId, None, now)] + [Finish(n, true, now)];
      PossibleRun(c, vm, s, run) && !AlwaysBalanced(c, vm, s, run)
  {
    hide Balanced, Traced, SaneCosts, HasIdle, AgentsInStep;
    var ended, started := SessionEnd(agent, now), SessionStart(agent, k, false, Some(other), newId, None, now);
    var id := s.host.agents[agent];
    EndedIs(c, s, n, id, agent);
    var s1 := Next(c, vm, s, ended);
    assert s1.host.agents == s.host.agents - {agent} && s1.pending == s.pending && s1.gone == s.gone;
    assert s1.host.units[other] == s.host.units[other] && s1.host.units.Keys == s.host.units.Keys;
    var s2 := Next(c, vm, s1, started);
    assert s2.host.agents == s1.host.agents[agent := other] && s2.pending == s.pending;
    TwoSteps(c, vm, s, ended, started);
    Unguarded(c, vm, s, [ended, started], Finish(n, true, now));
  }

  lemma EndedIs(c: Config, s: System, n: string, id: string, agent: string)
    requires Traced(s) && Balanced(c, s) && n in s.pending && s.pending[n].replacing == Some(id) && s.pending[n].kind.Desktop?
    requires agent in s.host.agents && s.host.agents[agent] == id
    ensures id in s.host.units && s.host.units[id].kind.Headless? && s.host.units[id].agent == Some(agent)
  {
    hide PortsInStep, Accounts;
    Indexed(s.host.units, s.host.agents, agent);
    WaitsFor(s, n, id);
  }

  // ----- Two requests for one unit -----

  lemma BothWait(c: Config, vm: bool, s: System, id: string, to: Kind, n: string, m: string, p: int, q: int)
    requires Traced(s) && id in s.host.units && s.host.units[id].kind != to
    requires Fresh(s, n) && Fresh(s, m) && n != m && p !in s.host.used && q !in s.host.used && p != q
    requires to.Desktop? ==> vm && PromoteError(c, s.host.budget).None? && PromoteError(c, Converted(c, s.host.budget, 1)).None?
    ensures var first, second := Convert(id, n, to, Some(p)), Convert(id, m, to, Some(q));
      var s2 := Next(c, vm, Next(c, vm, s, first), second);
      Possible(s, first) && Possible(Next(c, vm, s, first), second)
      && n in s2.pending && m in s2.pending && s2.pending[n].replacing == s2.pending[m].replacing == Some(id) && id in s2.host.units
  {
    hide PromoteError, Converted, Traced;
    var s1 := Next(c, vm, s, Convert(id, n, to, Some(p)));
    assert s1.host.units.Keys == s.host.units.Keys;
    StillFresh(s, s1, n, m);
  }

  lemma OneConverted(c: Config, vm: bool, s: System, id: string, n: string, m: string, ok: bool, now: int)
    requires n in s.pending && m in s.pending && n != m && id in s.host.units && Fresh(s.(pending := map[]), n)
    requires s.pending[n].replacing == s.pending[m].replacing == Some(id)
    ensures var t := Next(c, vm, s, Finish(n, true, now));
      Possible(s, Finish(n, true, now)) && Possible(t, Finish(m, ok, now)) && !Guard(c, vm, t, Finish(m, ok, now))
  {
  }

  /**
   * The status of a unit is never looked at: a second conversion begins while the first waits, and when the first has
   * succeeded the second one, well or not, ends for a unit that is gone.
   */
  lemma OverlappingConversions(c: Config, vm: bool, s: System, id: string, to: Kind, n: string, m: string, p: int, q: int, ok: bool, now: int)
    requires SaneCosts(c) && Traced(s) && Balanced(c, s) && id in s.host.units && s.host.units[id].kind != to
    requires Fresh(s, n) && Fresh(s, m) && n != m && p !in s.host.used && q !in s.host.used && p != q
    requires to.Desktop? ==> vm && PromoteError(c, s.host.budget).None? && PromoteError(c, Converted(c, s.host.budget, 1)).None?
    ensures var run := [Convert(id, n, to, Some(p)), Convert(id, m, to, Some(q))] + [Finish(n, true, now)] + [Finish(m, ok, now)];
      PossibleRun(c, vm, s, run) && !AlwaysBalanced(c, vm, s, run)
  {
    hide Next, Possible, Balanced, Traced, PromoteError, Converted, SaneCosts, Guard;
    var first, second := Convert(id, n, to, Some(p)), Convert(id, m, to, Some(q));
    BothWait(c, vm, s, id, to, n, m, p, q);
    TwoSteps(c, vm, s, first, second);
    RunTraced(c, vm, s, [first, second]);
    var s2 := Reached(c, vm, s, [first, second]);
    WaitsFor(s2, n, id);
    OneConverted(c, vm, s2, id, n, m, ok, now);
    Extended(c, vm, s, [first, second], Finish(n, true, now));
    Unguarded(c, vm, s, [first, second] + [Finish(n, true, now)], Finish(m, ok, now));
  }

  /** A unit that is destroyed while it is converted: the conversion then ends, well or not, for a unit that is gone. */
  lemma DestroyedWhileConverted(c: Config, vm: bool, s: System, id: string, n: string, ok: bool, now: int)
    requires SaneCosts(c) && Traced(s) && Balanced(c, s) && id in s.doomed && n in s.pending && s.pending[n].replacing == Some(id)
    ensures PossibleRun(c, vm, s, [DestroyEnd(id), Finish(n, ok, now)])
    ensures !AlwaysBalanced(c, vm, s, [DestroyEnd(id), Finish(n, ok, now)])
  {
    hide Balanced, SaneCosts;
    DoomedKnown(s, id);
    Two(c, vm, s, DestroyEnd(id), Finish(n, ok, now));
  }

  /** A unit that is destroyed twice is taken off the budget twice. */
  lemma DestroyedTwice(c: Config, vm: bool, s: System, id: string)
    requires SaneCosts(c) && Traced(s) && Balanced(c, s) && s.doomed[id] >= 2 && id in s.host.units
    requires CountOf(s.host.budget, s.host.units[id].kind) >= 2
    ensures PossibleRun(c, vm, s, [DestroyEnd(id), DestroyEnd(id)])
    ensures !AlwaysBalanced(c, vm, s, [DestroyEnd(id), DestroyEnd(id)])
  {
    hide Balanced, SaneCosts;
    Two(c, vm, s, DestroyEnd(id), DestroyEnd(id));
  }

  /**
   * A reset that fails evicts the record it holds, even one that was removed meanwhile: while another unit of the kind is
   * counted, its cost is taken off the budget once more.
   */
  lemma StaleEviction(c: Config, vm: bool, s: System, id: string)
    requires SaneCosts(c) && Traced(s) && Balanced(c, s) && id in s.gone && CountOf(s.host.budget, s.gone[id].kind) >= 1
    ensures PossibleRun(c, vm, s, [DestroyBegin(id), DestroyEnd(id)])
    ensures !AlwaysBalanced(c, vm, s, [DestroyBegin(id), DestroyEnd(id)])
  {
    hide Balanced, SaneCosts;
    Two(c, vm, s, DestroyBegin(id), DestroyEnd(id));
  }

  // ----- The slot a demotion gave up -----

  function Failures(ns: seq<string>, now: int): seq<Event> {
    if ns == [] then [] else Failures(ns[..|ns| - 1], now) + [Finish(ns[|ns| - 1], false, now)]
  }

  ghost predicate DemotionsOf(s: System, ns: seq<string>) {
    (forall i :: 0 <= i < |ns| ==> ns[i] in s.pending && s.pending[ns[i]].replacing.Some? && s.pending[ns[i]].kind.Headless?)
    && forall i, j :: 0 <= i < j < |ns| ==> ns[i] != ns[j]
  }

  /**
   * Demotions that wait can all fail in balance if and only if the slots they gave up are still spare: with all of them taken
   * back, the budget is within the limits that promote checks.
   */
  lemma RollbacksExact(c: Config, vm: bool, s: System, ns: seq<string>, now: int)
    requires SaneCosts(c) && Traced(s) && Balanced(c, s) && Orderly(s) && DemotionsOf(s, ns) && ns != []
    ensures PossibleRun(c, vm, s, Failures(ns, now))
    ensures AlwaysBalanced(c, vm, s, Failures(ns, now)) <==> Spare(c, s.host.budget, |ns|)
  {
    hide Balanced, Traced, Orderly, Spare, SaneCosts;
    RollbacksGuarded(c, vm, s, ns, now);
    RunExact(c, vm, s, Failures(ns, now));
  }

  /** What a run of failures leaves, when every one of them found what it must. */
  ghost predicate TakenBack(c: Config, s: System, t: System, n: nat) {
    t.host.budget == Converted(c, s.host.budget, n) && Orderly(t) && Balanced(c, t)
  }

  lemma {:induction false} RollbacksGuarded(c: Config, vm: bool, s: System, ns: seq<string>, now: int)
    requires SaneCosts(c) && Traced(s) && Balanced(c, s) && Orderly(s) && DemotionsOf(s, ns)
    ensures PossibleRun(c, vm, s, Failures(ns, now))
    ensures ns != [] ==> (GuardedRun(c, vm, s, Failures(ns, now)) <==> Spare(c, s.host.budget, |ns|))
    ensures RolledBack(s, Reached(c, vm, s, Failures(ns, now)), ns)
    ensures GuardedRun(c, vm, s, Failures(ns, now)) ==> TakenBack(c, s, Reached(c, vm, s, Failures(ns, now)), |ns|)
  {
    hide *;
    if ns == [] {
      NoFailures(c, vm, s, ns, now);
    } else {
      var init, n := ns[..|ns| - 1], ns[|ns| - 1];
      var run, ev := Failures(init, now), Finish(n, false, now);
      FailuresNext(s, ns, now);
      RollbacksGuarded(c, vm, s, init, now);
      RunTraced(c, vm, s, run);
      NoFailures(c, vm, s, init, now);
      Extended(c, vm, s, run, ev);
      RolledBackNext(c, vm, s, Reached(c, vm, s, run), ns, now);
      SpareMore(c, s.host.budget, |init|);
      if GuardedRun(c, vm, s, run) {
        TakenBackNext(c, vm, s, Reached(c, vm, s, run), n, |init|, now);
      }
    }
  }

  lemma NoFailures(c: Config, vm: bool, s: System, ns: seq<string>, now: int)
    requires Balanced(c, s) && Orderly(s)
    ensures ns == [] ==> Failures(ns, now) == [] && Reached(c, vm, s, Failures(ns, now)) == s && PossibleRun(c, vm, s, Failures(ns, now))
                         && GuardedRun(c, vm, s, Failures(ns, now)) && TakenBack(c, s, s, 0) && RolledBack(s, s, ns)
  {
    hide Balanced, Orderly;
  }

  lemma FailuresNext(s: System, ns: seq<string>, now: int)
    requires ns != [] && DemotionsOf(s, ns)
    ensures DemotionsOf(s, ns[..|ns| - 1]) && Failures(ns, now) == Failures(ns[..|ns| - 1], now) + [Finish(ns[|ns| - 1], false, now)]
    ensures ns[|ns| - 1] in s.pending && s.pending[ns[|ns| - 1]].replacing.Some? && s.pending[ns[|ns| - 1]].kind.Headless?
  {
  }

  lemma TakenBackNext(c: Config, vm: bool, s: System, t: System, n: string, done: nat, now: int)
    requires SaneCosts(c) && Traced(t) && TakenBack(c, s, t, done)
    requires n in t.pending && t.pending[n].replacing.Some? && t.pending[n].kind.Headless?
    ensures Guard(c, vm, t, Finish(n, false, now)) <==> Spare(c, s.host.budget, done + 1)
    ensures Guard(c, vm, t, Finish(n, false, now)) ==> TakenBack(c, s, Next(c, vm, t, Finish(n, false, now)), done + 1)
  {
    hide Balanced, Traced, Orderly, Spare, SaneCosts, FinishGuard, Next, Converted, Guard;
    RollbackExact(c, vm, t, n, now);
    ConvertedNext(c, s.host.budget, done);
  }

  /** Exactly those that failed no longer wait. */
  ghost predicate RolledBack(s: System, t: System, ns: seq<string>) {
    forall n :: if n in s.pending && n !in ns then n in t.pending && t.pending[n] == s.pending[n] else n !in t.pending
  }

  lemma RolledBackNext(c: Config, vm: bool, s: System, t: System, ns: seq<string>, now: int)
    requires ns != [] && DemotionsOf(s, ns) && RolledBack(s, t, ns[..|ns| - 1])
    ensures var n := ns[|ns| - 1];
      Possible(t, Finish(n, false, now)) && n in t.pending && t.pending[n] == s.pending[n]
      && RolledBack(s, Next(c, vm, t, Finish(n, false, now)), ns)
  {
    hide Converted, PromoteError, Released;
    var n := ns[|ns| - 1];
    assert n in s.pending && n !in ns[..|ns| - 1];
    assert Next(c, vm, t, Finish(n, false, now)).pending == t.pending - {n};
    assert forall x :: x in ns <==> x in ns[..|ns| - 1] || x == n;
  }

  lemma RollbackExact(c: Config, vm: bool, t: System, n: string, now: int)
    requires SaneCosts(c) && Traced(t) && Balanced(c, t) && Orderly(t)
    requires n in t.pending && t.pending[n].replacing.Some? && t.pending[n].kind.Headless?
    ensures Guard(c, vm, t, Finish(n, false, now)) <==> Spare(c, t.host.budget, 1)
    ensures Guard(c, vm, t, Finish(n, false, now)) ==>
      var u := Next(c, vm, t, Finish(n, false, now));
      u.host.budget == Converted(c, t.host.budget, 1) && Orderly(u) && Balanced(c, u)
  {
    hide Balanced, Traced, Spare, SaneCosts, Converted, PromoteError, AgentsInStep, PortsInStep, Count, Leaving, Finished;
    OnItsWay(t, n);
    NotGivenUp(t, n, Headless);
    OwedIs(c, t);
    GivenUpIs(t, n, t.pending[n].replacing.value);
    PromoteSpare(c, t.host.budget);
    if FinishGuard(c, t, n, false) {
      FinishExact(c, t, n, false, now);
      OrderlyFinished(c, t, n, false, now);
      FinishedPending(c, t, n, false, now);
    }
  }

  lemma OwedIs(c: Config, t: System)
    requires Balanced(c, t)
    ensures t.host.budget.headless == Owed(t, Headless) && AgentsInStep(t.host.units, t.host.agents)
  {
    hide AgentsInStep, PortsInStep, Owed, Rebuilt;
  }

  lemma PromoteSpare(c: Config, b: Budget)
    ensures PromoteError(c, b).None? <==> Spare(c, b, 1)
  {
  }

  lemma Times(n: nat, x: real)
    ensures (n + 1) as real * x == n as real * x + x
  {
    assert (n + 1) as real == n as real + 1.0;
  }

  lemma ConvertedNext(c: Config, b: Budget, n: nat)
    ensures Converted(c, Converted(c, b, n), 1) == Converted(c, b, n + 1)
    ensures Spare(c, Converted(c, b, n), 1) <==> Spare(c, b, n + 1)
  {
    Times(n, Net(c).cpu);
    Times(n, Net(c).ram);
    Times(n, Net(c).disk);
  }

  lemma SpareMore(c: Config, b: Budget, n: nat)
    requires SaneCosts(c)
    ensures Spare(c, b, n + 1) ==> Spare(c, b, n)
  {
    hide Spare, SaneCosts;
    if Spare(c, b, n + 1) { SpareFewer(c, b, n + 1, n); }
  }

  /**
   * A demotion waits, its desktop slot was the last; a desktop session takes the slot, which every limit allows; then the
   * demotion fails. Its rollback is refused: the budget still counts the unit as headless, and the unit stays demoting.
   */
  lemma SlotTaken(c: Config, vm: bool, s: System, n: string, id: string, start: Event, now: int)
    requires SaneCosts(c) && Traced(s) && Balanced(c, s) && n in s.pending && s.pending[n].replacing == Some(id) && s.pending[n].kind.Headless?
    requires start.SessionStart? && start.agent == "" && start.kind.Desktop? && start.pick.None? && start.port.Some? && vm && Possible(s, start)
    requires s.host.budget.desktop == c.maxDesktop - 1 && ReserveError(c, s.host.budget, Desktop).None?
    requires WithinCounts(c, s.host.budget) && WithinHeadless(c, s.host.budget)
    ensures var t := Next(c, vm, s, start);
      var after := Next(c, vm, t, Finish(n, false, now));
      WithinCounts(c, t.host.budget) && WithinHeadless(c, t.host.budget) && WithinCompute(c, t.host.budget) && WithinDisk(c, t.host.budget)
      && PossibleRun(c, vm, s, [start, Finish(n, false, now)]) && !AlwaysBalanced(c, vm, s, [start, Finish(n, false, now)])
      && after.host.units == s.host.units && after.host.budget == t.host.budget && n !in after.pending
  {
    hide Balanced, SaneCosts, Traced, HasIdle, WithinDisk, WithinCompute, WithinHeadless, WithinCounts, Charged, ReserveError, PromoteError;
    var t := Next(c, vm, s, start);
    ReserveExact(c, s.host.budget, Desktop);
    ChargedDesktop(c, s.host.budget);
    WaitsFor(s, n, id);
    Two(c, vm, s, start, Finish(n, false, now));
    assert t.host.budget == Charged(c, s.host.budget, Desktop);
  }

  lemma ChargedDesktop(c: Config, b: Budget)
    requires b.desktop == c.maxDesktop - 1
    ensures PromoteError(c, Charged(c, b, Desktop)).Some?
  {
  }

  // ----- Requests that nothing else overlaps -----

  /** What it leaves when creating the container fails. */
  function Failed(c: Config, s: System, id: string): System
    requires id in s.host.units
  {
    var h, u := s.host, s.host.units[id];
    if PromoteError(c, Converted(c, h.budget, -1)).Some? then
      s.(host := h.(units := h.units[id := u.(status := Demoting)], budget := Converted(c, h.budget, -1)))
    else s.(host := h.(units := h.units[id := u.(status := StatusFor(u.agent))]))
  }

  /** What waits once a conversion has begun. */
  function Begun(c: Config, s: System, id: string, newId: string, to: Kind, port: int): System
    requires id in s.host.units
  {
    var h, u := s.host, s.host.units[id];
    s.(host := Host(h.units[id := u.(status := Converting(to))], h.agents, h.used + {port}, Converted(c, h.budget, Up(to))),
       pending := s.pending[newId := Work(to, port, false, u.agent, Some(id))])
  }

  lemma ConversionBegins(c: Config, vm: bool, s: System, id: string, newId: string, to: Kind, port: int)
    requires !Refused(c, vm, s.host, id, to)
    ensures Next(c, vm, s, Convert(id, newId, to, Some(port))) == Begun(c, s, id, newId, to, port)
  {
    hide Converted, PromoteError;
  }

  lemma DemotionFails(c: Config, vm: bool, s: System, id: string, newId: string, port: int, now: int)
    requires Traced(s) && id in s.host.units && s.host.units[id].kind.Desktop? && Fresh(s, newId) && port !in s.host.used
    ensures Next(c, vm, Begun(c, s, id, newId, Headless, port), Finish(newId, false, now)) == Failed(c, s, id)
  {
    hide Converted, PromoteError, Traced;
    TracedNamed(s, id);
    var h, t := s.host, Begun(c, s, id, newId, Headless, port);
    PromotedBack(c, h.budget);
    assert s.gone - {id} == s.gone && t.pending - {newId} == s.pending && t.host.used - {port} == h.used;
    assert Next(c, vm, t, Finish(newId, false, now)).host.units == Failed(c, s, id).host.units;
  }

  lemma PromotedBack(c: Config, b: Budget)
    ensures Converted(c, Converted(c, b, -1), 1) == b
    ensures PromoteError(c, Converted(c, b, -1)).None? <==> b.desktop <= c.maxDesktop && WithinCompute(c, b)
  {
  }

  /**
   * A demotion whose container cannot be created leaves everything but the status as it was if and only if the budget was within
   * the limits that promote checks; otherwise only the port is given back: the unit stays demoting, and the budget demoted.
   */
  lemma FailedDemotion(c: Config, vm: bool, s: System, id: string, newId: string, port: int, now: int)
    requires Traced(s) && id in s.host.units && s.host.units[id].kind.Desktop? && Fresh(s, newId) && port !in s.host.used
    ensures var h, u := s.host, s.host.units[id];
      var t := Next(c, vm, Next(c, vm, s, Convert(id, newId, Headless, Some(port))), Finish(newId, false, now));
      if h.budget.desktop <= c.maxDesktop && WithinCompute(c, h.budget)
      then t == s.(host := h.(units := h.units[id := u.(status := StatusFor(u.agent))]))
      else t == s.(host := h.(units := h.units[id := u.(status := Demoting)], budget := Converted(c, h.budget, -1)))
           && t.host.budget != h.budget
  {
    hide Next, PromoteError, Traced;
    ConversionBegins(c, vm, s, id, newId, Headless, port);
    DemotionFails(c, vm, s, id, newId, port, now);
    PromotedBack(c, s.host.budget);
  }

  /** A start counts what runs, whatever the limits are: two desktops where one is allowed. */
  lemma OverLimitStart(c: Config, vm: bool, s: System, id: string, newId: string, port: int, now: int)
    requires Traced(s) && id in s.host.units && s.host.units[id].kind.Desktop? && Fresh(s, newId) && port !in s.host.used
    requires c.maxDesktop == 1 && s.host.budget == Rebuilt(c, 0, 2)
    ensures var t := Next(c, vm, Next(c, vm, s, Convert(id, newId, Headless, Some(port))), Finish(newId, false, now));
      t.host.units[id].status.Demoting? && t.host.budget.headless == 1 && t.host.budget.desktop == 1
  {
    hide Next, Traced;
    FailedDemotion(c, vm, s, id, newId, port, now);
  }

  /** A unit that cannot be created leaves nothing behind. */
  lemma FailedCreation(c: Config, vm: bool, s: System, start: Event, now: int)
    requires SaneCosts(c) && Balanced(c, s) && start.SessionStart? && Possible(s, start) && start.newId in Next(c, vm, s, start).pending
    ensures Next(c, vm, Next(c, vm, s, start), Finish(start.newId, false, now)) == s
  {
    hide Balanced, SaneCosts, HasIdle, Charged, Released, ReserveError;
    var t := Next(c, vm, s, start);
    BalancedAccurate(c, s);
    ReleaseUndoesReserve(c, s.host.budget, start.kind);
    assert t.pending - {start.newId} == s.pending && t.host.used - {start.port.value} == s.host.used;
  }

  lemma BalancedAccurate(c: Config, s: System)
    requires Balanced(c, s)
    ensures Accurate(c, s.host.budget)
  {
    hide AgentsInStep, PortsInStep, Owed;
  }

  /** A promotion whose machine cannot be created leaves everything but the status as it was. */
  lemma FailedPromotion(c: Config, vm: bool, s: System, id: string, newId: string, port: int, now: int)
    requires Traced(s) && !Refused(c, vm, s.host, id, Desktop) && Fresh(s, newId) && port !in s.host.used
    ensures var h, u := s.host, s.host.units[id];
      Next(c, vm, Next(c, vm, s, Convert(id, newId, Desktop, Some(port))), Finish(newId, false, now))
      == s.(host := h.(units := h.units[id := u.(status := StatusFor(u.agent))]))
  {
    hide Converted, PromoteError, Traced;
    TracedNamed(s, id);
    var h, t := s.host, Next(c, vm, s, Convert(id, newId, Desktop, Some(port)));
    DemoteUndoesPromote(c, h.budget);
    assert s.gone - {id} == s.gone && t.pending - {newId} == s.pending && t.host.used - {port} == h.used;
    var w := h.units[id].(status := StatusFor(h.units[id].agent));
    assert Next(c, vm, t, Finish(newId, false, now)).host.units == h.units[id := w];
  }

  /** The unit id was replaced by newId of kind k, which its agent, if any, now holds; every other unit is as it was. */
  ghost predicate Converts(before: Host, after: Host, id: string, newId: string, k: Kind) {
    id in before.units && newId in after.units && after.units[newId].kind == k && before.units[id].kind != k
    && after.units - {newId} == before.units - {id}
    && after.units[newId].agent == before.units[id].agent
    && (before.units[id].agent.Some? ==>
          before.units[id].agent.value in after.agents && after.agents[before.units[id].agent.value] == newId)
  }

  lemma ConversionEnds(c: Config, vm: bool, s: System, id: string, newId: string, to: Kind, port: int, now: int)
    requires Traced(s) && AgentsInStep(s.host.units, s.host.agents) && id in s.host.units && s.host.units[id].kind != to && Fresh(s, newId)
    ensures var t := Next(c, vm, Begun(c, s, id, newId, to, port), Finish(newId, true, now));
      Converts(s.host, t.host, id, newId, to) && t.host.budget == Converted(c, s.host.budget, Up(to))
      && t.host.used == s.host.used + {port} - {s.host.units[id].port} && t.pending == s.pending && t.doomed == s.doomed
  {
    hide Converted, Traced, AgentsInStep;
    TracedNamed(s, id);
    NamedAgent(s.host.units, s.host.agents, id);
    var mid := Begun(c, s, id, newId, to, port);
    assert mid.pending - {newId} == s.pending;
    assert Next(c, vm, mid, Finish(newId, true, now)).host.units - {newId} == s.host.units - {id};
  }

  /** A conversion that succeeds replaces the unit, and its agent holds the new one; the budget counts the other kind. */
  lemma ConvertedAlone(c: Config, vm: bool, s: System, id: string, newId: string, to: Kind, port: int, now: int)
    requires Traced(s) && Balanced(c, s) && !Refused(c, vm, s.host, id, to) && Fresh(s, newId) && port !in s.host.used
    ensures var t := Next(c, vm, Next(c, vm, s, Convert(id, newId, to, Some(port))), Finish(newId, true, now));
      Converts(s.host, t.host, id, newId, to) && t.host.budget == Converted(c, s.host.budget, Up(to))
      && t.host.used == s.host.used + {port} - {s.host.units[id].port} && t.pending == s.pending && t.doomed == s.doomed
  {
    hide Next, Traced, Accounts, PortsInStep, AgentsInStep, Converts, Begun, Converted, PromoteError, Fresh;
    ConversionBegins(c, vm, s, id, newId, to, port);
    ConversionEnds(c, vm, s, id, newId, to, port, now);
  }

  /** Destroying a unit takes its record, index entry, port and cost away together. */
  lemma DestroyedAlone(c: Config, vm: bool, s: System, id: string)
    requires Traced(s) && id in s.host.units
    ensures var t := Next(c, vm, Next(c, vm, s, DestroyBegin(id)), DestroyEnd(id));
      t.host == Evicted(c, s.host, s.host.units[id]) && t.pending == s.pending && t.doomed == s.doomed
  {
    hide Released, Traced;
    TracedNamed(s, id);
  }

  // ----- A host at rest -----

  /** A host in step, within the limits that promote checks and with nothing in flight: every result about runs applies. */
  lemma QuietCalm(c: Config, h: Host)
    requires InStep(c, h) && "" !in h.units && h.budget.desktop <= c.maxDesktop && WithinCompute(c, h.budget)
    ensures var s := System(h, map[], map[], multiset{});
      Traced(s) && Balanced(c, s) && Calm(c, s)
  {
    hide AgentsInStep, PortsInStep, Count, Rebuilt;
    var s := System(h, map[], map[], multiset{});
    QuietInStep(c, s);
    NoneLeaving(s.pending, Desktop);
  }
}
