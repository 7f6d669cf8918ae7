/** What single changes to a sandbox host and to the requests in flight do to its records. */
module PoolAccounts {
  import opened Prelude
  import opened BudgetSpec
  import opened BudgetSafety
  import opened Pool
  import opened PoolInvariant
  import opened PoolRequests

  // ----- What waits still refers to records -----

  lemma TracedStored(s: System, id: string, u: Unit, agents: map<string, string>, used: set<int>, b: Budget)
    requires Traced(s) && Known(s, id) && u.id == id && u.kind == Record(s, id).kind
    ensures Traced(System(Host(s.host.units[id := u], agents, used, b), s.gone - {id}, s.pending, s.doomed))
  {
  }

  lemma TracedRemoved(s: System, id: string)
    requires Traced(s) && Known(s, id)
    ensures Traced(Removed(s, id))
  {
    var t := Removed(s, id);
    assert forall x :: Known(s, x) <==> Known(t, x);
    assert forall x :: Known(s, x) ==> Record(t, x).kind == Record(s, x).kind;
  }

  lemma TracedTaken(s: System, n: string, w: Work)
    requires Traced(s) && Fresh(s, n)
    requires w.replacing.Some? ==> Known(s, w.replacing.value) && Record(s, w.replacing.value).kind != w.kind
    ensures Traced(s.(pending := s.pending[n := w]))
  {
    var t := s.(pending := s.pending[n := w]);
    assert forall x :: Known(s, x) <==> Known(t, x);
  }

  lemma TracedFreed(s: System, n: string)
    requires Traced(s) && n in s.pending
    ensures Traced(s.(pending := s.pending - {n})) && Fresh(s.(pending := s.pending - {n}), n)
  {
    var t := s.(pending := s.pending - {n});
    assert forall x :: Known(s, x) <==> Known(t, x);
  }

  lemma TracedLanded(s: System, n: string, u: Unit)
    requires Traced(s) && Fresh(s, n) && u.id == n
    ensures Traced(s.(host := s.host.(units := s.host.units[n := u])))
  {
    var t := s.(host := s.host.(units := s.host.units[n := u]));
    assert forall x :: Known(s, x) ==> Known(t, x) && Record(t, x) == Record(s, x);
  }

  /** The index, the ports and the budget do not matter for it. */
  lemma TracedFrame(s: System, t: System)
    requires Traced(s) && t == s.(host := t.host) && t.host.units == s.host.units
    ensures Traced(t)
  {
    assert forall x :: Known(s, x) ==> Known(t, x) && Record(t, x) == Record(s, x);
  }

  lemma TracedHandedOut(s: System, id: string, agent: string, now: int)
    requires Traced(s) && id in s.host.units
    ensures Traced(s.(host := HandedOut(s.host, id, agent, now)))
  {
    hide Traced;
    TracedNamed(s, id);
    var t := HandedOut(s.host, id, agent, now);
    TracedStored(s, id, t.units[id], t.agents, t.used, t.budget);
    assert s.gone - {id} == s.gone;
  }

  lemma TracedNamed(s: System, id: string)
    requires Traced(s) && Known(s, id)
    ensures Record(s, id).id == id && id !in s.pending && id != "" && (id in s.host.units ==> id !in s.gone)
  {
  }

  lemma TracedDetaching(s: System, id: string, status: Status, now: int)
    requires Traced(s) && id in s.host.units
    ensures Traced(s.(host := Detaching(s.host, id, status, now)))
  {
    hide Traced;
    TracedNamed(s, id);
    var t := Detaching(s.host, id, status, now);
    TracedStored(s, id, t.units[id], t.agents, t.used, t.budget);
    assert s.gone - {id} == s.gone;
  }

  lemma TracedDoomed(s: System, id: string)
    requires Traced(s) && Known(s, id)
    ensures Traced(s.(doomed := s.doomed + multiset{id}))
  {
    var t := s.(doomed := s.doomed + multiset{id});
    assert forall x :: Known(s, x) ==> Known(t, x) && Record(t, x) == Record(s, x);
  }

  lemma TracedRegistered(s: System, n: string, w: Work, now: int)
    requires Traced(s) && Fresh(s, n)
    ensures Traced(Registered(s, n, w, now))
  {
    hide Traced;
    var u := NewUnit(n, w.kind, w.port, w.persistent, now);
    TracedLanded(s, n, u);
    if Truthy(w.agent) { TracedHandedOut(s.(host := s.host.(units := s.host.units[n := u])), n, w.agent.value, now); }
  }

  lemma ConvertTraced(c: Config, vm: bool, s: System, id: string, newId: string, to: Kind, port: Option<int>)
    requires Traced(s) && Fresh(s, newId)
    ensures Traced(ConvertBegun(c, vm, s, id, newId, to, port))
  {
    hide Traced, PromoteError, Converted;
    if !Refused(c, vm, s.host, id, to) {
      TracedNamed(s, id);
      var h := s.host;
      var b := Converted(c, h.budget, Up(to));
      assert s.gone - {id} == s.gone;
      var u := h.units[id].(status := Converting(to));
      if port.Some? {
        var used := h.used + {port.value};
        TracedStored(s, id, u, h.agents, used, b);
        TracedTaken(s.(host := Host(h.units[id := u], h.agents, used, b)), newId, Work(to, port.value, false, u.agent, Some(id)));
      } else if Undone(c, b, to).Some? {
        TracedStored(s, id, u.(status := StatusFor(u.agent)), h.agents, h.used, Undone(c, b, to).value);
      } else {
        TracedStored(s, id, u, h.agents, h.used, b);
      }
    }
  }

  lemma FinishTraced(c: Config, s: System, newId: string, ok: bool, now: int)
    requires Traced(s) && newId in s.pending
    ensures Traced(Finished(c, s, newId, ok, now))
  {
    hide Traced, PromoteError, Converted, Released;
    var w, rest := s.pending[newId], s.(pending := s.pending - {newId});
    TracedFreed(s, newId);
    var freed := s.host.(used := s.host.used - {w.port});
    if w.replacing.None? {
      if ok {
        TracedRegistered(rest, newId, w, now);
      } else {
        TracedFrame(rest, Finished(c, s, newId, ok, now));
      }
    } else if Known(s, w.replacing.value) {
      var id := w.replacing.value;
      if ok {
        TracedRemoved(rest, id);
        assert Fresh(Removed(rest, id), newId);
        TracedRegistered(Removed(rest, id), newId, w, now);
      } else if Undone(c, s.host.budget, w.kind).None? {
        TracedFrame(rest, rest.(host := freed));
      } else {
        var t := rest.(host := freed.(budget := Undone(c, s.host.budget, w.kind).value));
        TracedFrame(rest, t);
        TracedNamed(t, id);
        TracedStored(t, id, Record(t, id).(status := StatusFor(w.agent)), t.host.agents, t.host.used, t.host.budget);
      }
    }
  }

  lemma StartTraced(c: Config, vm: bool, s: System, ev: Event)
    requires Traced(s) && ev.SessionStart? && Possible(s, ev)
    ensures Traced(SessionStarted(c, vm, s, ev))
  {
    hide Traced, HasIdle, Charged, Released, ReserveError;
    var h := s.host;
    if Served(h, ev.agent) {
      if h.units[h.agents[ev.agent]].status.Idle? { TracedHandedOut(s, h.agents[ev.agent], ev.agent, ev.now); }
    } else if ev.pick.Some? {
      if ev.agent != "" { TracedHandedOut(s, ev.pick.value, ev.agent, ev.now); }
    } else if (ev.kind.Desktop? && !vm) || ReserveError(c, h.budget, ev.kind).Some? {
    } else if ev.port.None? {
      TracedFrame(s, SessionStarted(c, vm, s, ev));
    } else {
      var p, k := ev.port.value, ev.kind;
      var t := s.(host := h.(used := h.used + {p}, budget := Charged(c, h.budget, k)));
      TracedFrame(s, t);
      TracedTaken(t, ev.newId, Work(k, p, k.Desktop? || ev.persistent, Some(ev.agent), None));
    }
  }

  lemma StepTraced(c: Config, vm: bool, s: System, ev: Event)
    requires Traced(s) && Possible(s, ev)
    ensures Traced(Next(c, vm, s, ev))
  {
    hide SessionStarted, ConvertBegun, Finished, HasIdle, Released, Detached, Traced;
    match ev
    case SessionStart(_, _, _, _, _, _, _) => StartTraced(c, vm, s, ev);
    case SessionEnd(agent, now) =>
      if agent in s.host.agents && s.host.agents[agent] in s.host.units {
        var id := s.host.agents[agent];
        TracedDetaching(s, id, Idle, now);
        TracedDetaching(s, id, Resetting, now);
        TracedDoomed(s, id);
      }
    case Convert(id, newId, to, port) => ConvertTraced(c, vm, s, id, newId, to, port);
    case Finish(newId, ok, now) => FinishTraced(c, s, newId, ok, now);
    case Lose(newId) => TracedFreed(s, newId);
    case DestroyBegin(id) => if Known(s, id) { TracedDoomed(s, id); }
    case DestroyEnd(id) =>
      if Known(s, id) {
        TracedRemoved(s, id);
        TracedEnded(Removed(s, id), id, Released(c, s.host.budget, Record(s, id).kind));
      }
    case Assign(id, agent, now) => if id in s.host.units { TracedHandedOut(s, id, agent, now); }
    case Detach(id, status, now) => if id in s.host.units { TracedDetaching(s, id, status, now); }
    case Store(id, status) =>
      TracedNamed(s, id);
      TracedStored(s, id, Record(s, id).(status := status), s.host.agents, s.host.used, s.host.budget);
  }

  lemma TracedEnded(s: System, id: string, b: Budget)
    requires Traced(s)
    ensures Traced(s.(host := s.host.(budget := b), doomed := s.doomed - multiset{id}))
  {
    var t := s.(host := s.host.(budget := b), doomed := s.doomed - multiset{id});
    assert forall x :: Known(s, x) ==> Known(t, x) && Record(t, x) == Record(s, x);
  }

  // ----- Single changes: units and units on their way -----

  lemma AllTaken(units: map<string, Unit>, pending: map<string, Work>, n: string, w: Work)
    requires n !in units && n !in pending
    ensures n !in All(units, pending) && All(units, pending[n := w]) == All(units, pending)[n := Future(n, w)]
  {
  }

  lemma AllFreed(units: map<string, Unit>, pending: map<string, Work>, n: string)
    requires n in pending && n !in units
    ensures n in All(units, pending) && All(units, pending)[n] == Future(n, pending[n])
    ensures All(units, pending - {n}) == All(units, pending) - {n}
  {
  }

  lemma AllLanded(units: map<string, Unit>, pending: map<string, Work>, n: string, v: Unit)
    requires n in pending && n !in units
    ensures All(units[n := v], pending - {n}) == All(units, pending)[n := v]
  {
  }

  lemma AllStored(units: map<string, Unit>, pending: map<string, Work>, id: string, u: Unit)
    requires id !in pending
    ensures All(units[id := u], pending) == All(units, pending)[id := u]
    ensures id in units <==> id in All(units, pending)
    ensures id in units ==> All(units, pending)[id] == units[id]
  {
  }

  lemma AllDropped(units: map<string, Unit>, pending: map<string, Work>, id: string)
    requires id !in pending && id in units
    ensures All(units - {id}, pending) == All(units, pending) - {id}
    ensures id in All(units, pending) && All(units, pending)[id] == units[id]
  {
  }

  lemma InLeaving(pending: map<string, Work>, n: string, k: Kind)
    ensures n in LeavingIds(pending, k) <==> n in pending && pending[n].replacing.Some? && pending[n].kind != k
  {
  }

  lemma LeavingTaken(pending: map<string, Work>, n: string, w: Work, k: Kind)
    requires n !in pending
    ensures Leaving(pending[n := w], k) == Leaving(pending, k) + if w.replacing.Some? && w.kind != k then 1 else 0
  {
    hide LeavingIds;
    var before, after := LeavingIds(pending, k), LeavingIds(pending[n := w], k);
    var gained := if w.replacing.Some? && w.kind != k then {n} else {};
    forall x ensures x in after <==> x in before + gained {
      InLeaving(pending, x, k);
      InLeaving(pending[n := w], x, k);
    }
    InLeaving(pending, n, k);
    assert after == before + gained;
  }

  lemma LeavingFreed(pending: map<string, Work>, n: string, k: Kind)
    requires n in pending
    ensures Leaving(pending - {n}, k) == Leaving(pending, k) - if pending[n].replacing.Some? && pending[n].kind != k then 1 else 0
  {
    LeavingTaken(pending - {n}, n, pending[n], k);
    assert (pending - {n})[n := pending[n]] == pending;
  }

  function OwedOf(units: map<string, Unit>, pending: map<string, Work>, k: Kind): int {
    Count(All(units, pending), k) - Leaving(pending, k)
  }

  function One(b: bool): int {
    if b then 1 else 0
  }

  /** What one unit on its way adds to what the budget owes for a kind. */
  function Weight(w: Work, k: Kind): int {
    if w.kind == k then 1 else if w.replacing.Some? then -1 else 0
  }

  lemma OwedTaken(units: map<string, Unit>, pending: map<string, Work>, n: string, w: Work, k: Kind)
    requires n !in units && n !in pending
    ensures OwedOf(units, pending[n := w], k) == OwedOf(units, pending, k) + Weight(w, k)
  {
    hide Count, Leaving;
    AllTaken(units, pending, n, w);
    CountAdded(All(units, pending), Future(n, w), k);
    LeavingTaken(pending, n, w, k);
  }

  lemma OwedFreed(units: map<string, Unit>, pending: map<string, Work>, n: string, k: Kind)
    requires n !in units && n in pending
    ensures OwedOf(units, pending - {n}, k) == OwedOf(units, pending, k) - Weight(pending[n], k)
  {
    hide OwedOf;
    OwedTaken(units, pending - {n}, n, pending[n], k);
    assert (pending - {n})[n := pending[n]] == pending;
  }

  lemma OwedLanded(units: map<string, Unit>, pending: map<string, Work>, n: string, v: Unit, k: Kind)
    requires n !in units && n in pending && v.id == n && v.kind == pending[n].kind
    ensures OwedOf(units[n := v], pending - {n}, k)
         == OwedOf(units, pending, k) + One(pending[n].replacing.Some? && pending[n].kind != k)
  {
    hide Count, Leaving;
    AllLanded(units, pending, n, v);
    AllFreed(units, pending, n);
    CountUpdated(All(units, pending), v, k);
    LeavingFreed(pending, n, k);
  }

  lemma OwedStored(units: map<string, Unit>, pending: map<string, Work>, id: string, u: Unit, k: Kind)
    requires id !in pending && u.id == id && (id in units ==> units[id].kind == u.kind)
    ensures OwedOf(units[id := u], pending, k) == OwedOf(units, pending, k) + One(id !in units && u.kind == k)
  {
    hide Count, Leaving;
    AllStored(units, pending, id, u);
    if id in units {
      CountUpdated(All(units, pending), u, k);
    } else {
      CountAdded(All(units, pending), u, k);
    }
  }

  lemma OwedDropped(units: map<string, Unit>, pending: map<string, Work>, id: string, k: Kind)
    requires id !in pending && id in units
    ensures OwedOf(units - {id}, pending, k) == OwedOf(units, pending, k) - One(units[id].kind == k)
  {
    hide Count, Leaving;
    AllDropped(units, pending, id);
    CountRemoved(All(units, pending), id, k);
  }

  // ----- Single changes: the budget -----

  /** The totals are those of h headless units and d desktops. */
  predicate Holds(c: Config, b: Budget, h: int, d: int) {
    b.headless == h >= 0 && b.desktop == d >= 0 && Accurate(c, b)
  }

  lemma AccountsHold(c: Config, s: System)
    ensures Accounts(c, s) <==>
      Holds(c, s.host.budget, OwedOf(s.host.units, s.pending, Headless), OwedOf(s.host.units, s.pending, Desktop))
  {
  }

  lemma HoldsCharged(c: Config, b: Budget, h: int, d: int, k: Kind)
    requires Holds(c, b, h, d)
    ensures Holds(c, Charged(c, b, k), h + One(k.Headless?), d + One(k.Desktop?))
  {
    hide Rebuilt;
    if k.Headless? { RebuiltShift(c, h, d, 1, 0); } else { RebuiltShift(c, h, d, 0, 1); }
  }

  /** Giving a unit back is exact if and only if there is one of its kind. */
  lemma HoldsReleased(c: Config, b: Budget, h: int, d: int, k: Kind)
    requires SaneCosts(c) && Holds(c, b, h, d)
    ensures Holds(c, Released(c, b, k), h - One(k.Headless?), d - One(k.Desktop?)) <==> CountOf(b, k) >= 1
  {
    hide Rebuilt;
    if CountOf(b, k) >= 1 { StepAccurate(c, b, BudgetSafety.Release(k)); }
  }

  /** A swap is exact if and only if there is a unit of the kind given up. */
  lemma HoldsConverted(c: Config, b: Budget, h: int, d: int, to: Kind)
    requires Holds(c, b, h, d)
    ensures Holds(c, Converted(c, b, Up(to)), h - Up(to), d + Up(to)) <==> CountOf(b, Other(to)) >= 1
  {
    hide Rebuilt;
    if to.Desktop? { RebuiltShift(c, h, d, -1, 1); } else { RebuiltShift(c, h, d, 1, -1); }
  }

  function Other(k: Kind): Kind {
    if k.Headless? then Desktop else Headless
  }
}
