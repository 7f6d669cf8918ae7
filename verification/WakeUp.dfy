/** The wake-up protocol: messages, signals, workers and restarts as interleaved steps. */
module WakeUp {
  import opened MessageRouterModule

  /** At most this many messages are read at once. */
  const READ_LIMIT: nat := 100

  datatype Phase = Sleeping | Woken | Running

  /**
   * unread counts committed messages not yet received; pending holds the senders that have committed but not notified;
   * replaying the targets a starting manager has still to notify; taken what an uncommitted cycle has read.
   */
  datatype System = System(signals: Signals, unread: map<AgentId, nat>, pending: multiset<AgentId>, replaying: seq<AgentId>,
                           phase: map<AgentId, Phase>, taken: map<AgentId, nat>)

  datatype Event =
    | Send(a: AgentId)
    | Notify(a: AgentId)
    | Register(a: AgentId)
    | Unregister(a: AgentId)
    | Wake(a: AgentId)
    | BootstrapRead(a: AgentId)
    | MidLoopRead(a: AgentId)
    | Skip(a: AgentId)
    | Commit(a: AgentId)
    | Rollback(a: AgentId)
    | ReplayQuery(targets: seq<AgentId>)
    | ReplayNotify

  function Unread(s: System, a: AgentId): nat {
    if a in s.unread then s.unread[a] else 0
  }

  function Taken(s: System, a: AgentId): nat {
    if a in s.taken then s.taken[a] else 0
  }

  function PhaseOf(s: System, a: AgentId): Phase {
    if a in s.phase then s.phase[a] else Sleeping
  }

  function Waiting(s: System, a: AgentId): nat {
    if a in s.signals.queues then s.signals.queues[a] else 0
  }

  /** What will still make the agent look at its messages. */
  function Promised(s: System, a: AgentId): nat {
    Waiting(s, a) + s.pending[a] + multiset(s.replaying)[a] + if PhaseOf(s, a) == Woken then 1 else 0
  }

  function AtMost(n: nat): nat {
    if n <= READ_LIMIT then n else READ_LIMIT
  }

  function Read(s: System, a: AgentId): System {
    s.(unread := s.unread[a := Unread(s, a) - AtMost(Unread(s, a))],
       taken := s.taken[a := Taken(s, a) + AtMost(Unread(s, a))],
       phase := s.phase[a := Running])
  }

  ghost predicate Possible(s: System, e: Event) {
    match e
    case Notify(a) => a in s.pending
    case Wake(a) => Waiting(s, a) > 0 && PhaseOf(s, a) == Sleeping
    case BootstrapRead(a) => PhaseOf(s, a) == Woken
    case Skip(a) => PhaseOf(s, a) == Woken
    case MidLoopRead(a) => PhaseOf(s, a) == Running
    case Commit(a) => PhaseOf(s, a) == Running
    case Rollback(a) => PhaseOf(s, a) == Running
    case ReplayQuery(targets) => forall a :: multiset(targets)[a] == Unread(s, a)
    case _ => true
  }

  function Stopped(s: System, a: AgentId): System {
    s.(unread := s.unread[a := Unread(s, a) + Taken(s, a)], taken := s.taken[a := 0], phase := s.phase[a := Sleeping])
  }

  ghost function Step(s: System, e: Event): System
    requires Possible(s, e)
  {
    match e
    case Send(a) => s.(unread := s.unread[a := Unread(s, a) + 1], pending := s.pending + multiset{a})
    case Notify(a) => s.(signals := Notified(s.signals, a), pending := s.pending - multiset{a})
    case Register(a) =>
      s.(signals := Signals(s.signals.queues[a := 0], s.signals.failures - {a}), phase := s.phase[a := Sleeping])
    case Unregister(a) =>
      Stopped(s.(signals := Signals(s.signals.queues - {a}, s.signals.failures - {a})), a)
    case Wake(a) =>
      s.(signals := s.signals.(queues := s.signals.queues[a := s.signals.queues[a] - 1]), phase := s.phase[a := Woken])
    case BootstrapRead(a) => Read(s, a)
    case MidLoopRead(a) => Read(s, a)
    case Skip(a) => s.(phase := s.phase[a := Sleeping])
    case Commit(a) => s.(phase := s.phase[a := Sleeping], taken := s.taken[a := 0])
    case Rollback(a) => Stopped(s, a)
    case ReplayQuery(targets) => s.(replaying := s.replaying + targets)
    case ReplayNotify => s.(signals := NotifiedAll(s.signals, s.replaying), replaying := [])
  }

  /** The agent has a worker, and every unread message is matched by something that will make it look. */
  predicate Accounted(s: System, a: AgentId) {
    a in s.signals.queues && Unread(s, a) <= Promised(s, a)
  }

  /** What the steps that can lose a wake-up need: a promise to spare for each message they leave without one. */
  predicate Spare(s: System, e: Event, a: AgentId) {
    match e
    case Skip(b) => b == a ==> Unread(s, a) < Promised(s, a)
    case Rollback(b) => b == a ==> Unread(s, a) + Taken(s, a) <= Promised(s, a)
    case Register(b) => b == a ==> Unread(s, a) <= s.pending[a] + multiset(s.replaying)[a]
    case Unregister(b) => b != a
    case _ => true
  }

  /** The steps that can: a wake-up used without reading, a cycle undone, a worker replaced or stopped. */
  predicate Hazard(e: Event, a: AgentId) {
    e == Skip(a) || e == Rollback(a) || e == Register(a) || e == Unregister(a)
  }

  lemma WorkerExact(s: System, e: Event, a: AgentId)
    requires Accounted(s, a) && Possible(s, e)
    requires e.Register? || e.Unregister? || e.Skip? || e.Rollback? || e.Commit?
    ensures Accounted(Step(s, e), a) <==> Spare(s, e, a)
  {
    hide Notified, NotifiedAll;
  }

  lemma MessageExact(s: System, e: Event, a: AgentId)
    requires Accounted(s, a) && Possible(s, e)
    requires e.Send? || e.Notify? || e.Wake? || e.BootstrapRead? || e.MidLoopRead?
    ensures Accounted(Step(s, e), a)
  {
    hide NotifiedAll, Stopped;
  }

  /** Every possible step keeps an agent accounted for, except a hazard without a promise to spare. */
  lemma StepExact(s: System, e: Event, a: AgentId)
    requires Accounted(s, a) && Possible(s, e)
    ensures Accounted(Step(s, e), a) <==> Spare(s, e, a)
  {
    if e.ReplayNotify? {
      NotifiedEach(s.signals, s.replaying, a);
    } else if e.ReplayQuery? {
      assert multiset(s.replaying + e.targets) == multiset(s.replaying) + multiset(e.targets);
    } else {
      hide Accounted, Step, Possible;
      if e.Register? || e.Unregister? || e.Skip? || e.Rollback? || e.Commit? { WorkerExact(s, e, a); } else { MessageExact(s, e, a); }
    }
  }

  ghost function After(s0: System, events: seq<Event>): System {
    if events == [] then s0 else
      var s := After(s0, events[..|events| - 1]);
      if Possible(s, events[|events| - 1]) then Step(s, events[|events| - 1]) else s
  }

  ghost predicate AlwaysAccounted(s0: System, events: seq<Event>, a: AgentId) {
    Accounted(After(s0, events), a) && (events != [] ==> AlwaysAccounted(s0, events[..|events| - 1], a))
  }

  ghost predicate SpareRun(s0: System, events: seq<Event>, a: AgentId) {
    events == [] || (var s, e := After(s0, events[..|events| - 1]), events[|events| - 1];
      SpareRun(s0, events[..|events| - 1], a) && (Possible(s, e) ==> Spare(s, e, a)))
  }

  /** In every interleaving, an agent stays accounted for throughout exactly when every hazard of the run has promises to spare. */
  lemma {:induction false} RunExact(s0: System, events: seq<Event>, a: AgentId)
    requires Accounted(s0, a)
    ensures AlwaysAccounted(s0, events, a) <==> SpareRun(s0, events, a)
  {
    if events != [] {
      hide Accounted, Step, Possible, Spare;
      var init, e := events[..|events| - 1], events[|events| - 1];
      RunExact(s0, init, a);
      AlwaysNow(s0, init, a);
      if Possible(After(s0, init), e) && Accounted(After(s0, init), a) { StepExact(After(s0, init), e, a); }
    }
  }

  lemma AlwaysNow(s0: System, events: seq<Event>, a: AgentId)
    ensures AlwaysAccounted(s0, events, a) ==> Accounted(After(s0, events), a)
  {
  }

  // ----- No message is lost or read twice -----

  /** The messages a step hands to the agent for good: those of a cycle that commits. */
  function Delivers(s: System, e: Event, a: AgentId): nat {
    if e == Commit(a) then Taken(s, a) else 0
  }

  /** A step neither loses nor doubles a message: each is unread or held by a running cycle until a cycle commits with it. */
  lemma StepConserves(s: System, e: Event, a: AgentId)
    requires Possible(s, e)
    ensures var t := Step(s, e);
            Unread(t, a) + Taken(t, a) + Delivers(s, e, a) == Unread(s, a) + Taken(s, a) + if e == Send(a) then 1 else 0
    ensures e == BootstrapRead(a) || e == MidLoopRead(a) ==>
              Unread(Step(s, e), a) == if Unread(s, a) <= 100 then 0 else Unread(s, a) - 100
  {
    hide Notified, NotifiedAll;
  }

  /** The messages sent to the agent along a run, and those its cycles committed with. */
  ghost function SentTo(events: seq<Event>, a: AgentId): nat {
    if events == [] then 0 else SentTo(events[..|events| - 1], a) + if events[|events| - 1] == Send(a) then 1 else 0
  }

  ghost function Delivered(s0: System, events: seq<Event>, a: AgentId): nat {
    if events == [] then 0 else
      var s, e := After(s0, events[..|events| - 1]), events[|events| - 1];
      Delivered(s0, events[..|events| - 1], a) + if Possible(s, e) then Delivers(s, e, a) else 0
  }

  /** Along every run, hazards and restarts included, every message is delivered, held by a running cycle, or still unread: none is lost. */
  lemma {:induction false} MessagesConserved(s0: System, events: seq<Event>, a: AgentId)
    ensures var s := After(s0, events);
            Unread(s, a) + Taken(s, a) + Delivered(s0, events, a) == Unread(s0, a) + Taken(s0, a) + SentTo(events, a)
  {
    if events != [] {
      hide Step, Delivers, Unread, Taken;
      var init, e := events[..|events| - 1], events[|events| - 1];
      MessagesConserved(s0, init, a);
      if Possible(After(s0, init), e) { StepConserves(After(s0, init), e, a); }
    }
  }

  /** Where wakes read, cycles commit and the worker stays, the agent is accounted for throughout. */
  lemma RunKeepsInv(s0: System, events: seq<Event>, a: AgentId)
    requires Accounted(s0, a) && forall e :: e in events ==> !Hazard(e, a)
    ensures AlwaysAccounted(s0, events, a)
  {
    HazardFree(s0, events, a);
    RunExact(s0, events, a);
  }

  lemma {:induction false} HazardFree(s0: System, events: seq<Event>, a: AgentId)
    requires forall e :: e in events ==> !Hazard(e, a)
    ensures SpareRun(s0, events, a)
  {
    if events != [] {
      assert events[|events| - 1] in events && forall x :: x in events[..|events| - 1] ==> x in events;
      HazardFree(s0, events[..|events| - 1], a);
    }
  }

  /** A sleeping agent with an unread message has a signal in its queue once the senders have notified. */
  lemma NoLostWakeup(s0: System, events: seq<Event>, a: AgentId)
    requires Accounted(s0, a) && SpareRun(s0, events, a)
    ensures var s := After(s0, events);
      Unread(s, a) > 0 && PhaseOf(s, a) == Sleeping && s.pending[a] == 0 && a !in s.replaying ==> Possible(s, Wake(a))
  {
    RunExact(s0, events, a);
    AlwaysNow(s0, events, a);
  }

  /** n cycles of waking, reading and committing. */
  ghost function Cycles(s: System, a: AgentId, n: nat): System {
    if n == 0 then s else
      var t := Cycles(s, a, n - 1);
      if Possible(t, Wake(a)) then Step(Step(Step(t, Wake(a)), BootstrapRead(a)), Commit(a)) else t
  }

  lemma CyclesNext(s: System, a: AgentId, n: nat)
    requires n > 0 && Possible(Cycles(s, a, n - 1), Wake(a))
    ensures Possible(Step(Cycles(s, a, n - 1), Wake(a)), BootstrapRead(a))
    ensures Possible(Step(Step(Cycles(s, a, n - 1), Wake(a)), BootstrapRead(a)), Commit(a))
    ensures Cycles(s, a, n) == Step(Step(Step(Cycles(s, a, n - 1), Wake(a)), BootstrapRead(a)), Commit(a))
  {
  }

  lemma OneCycle(t: System, a: AgentId)
    requires PhaseOf(t, a) == Sleeping && Waiting(t, a) > 0 && Unread(t, a) <= Waiting(t, a)
    ensures Possible(t, Wake(a)) && Possible(Step(t, Wake(a)), BootstrapRead(a))
    ensures Possible(Step(Step(t, Wake(a)), BootstrapRead(a)), Commit(a))
    ensures var u := Step(Step(Step(t, Wake(a)), BootstrapRead(a)), Commit(a));
      PhaseOf(u, a) == Sleeping && Waiting(u, a) == Waiting(t, a) - 1 && Unread(u, a) <= Waiting(u, a)
  {
  }

  /** Consuming the signals that wait empties the mailbox, although each cycle reads a bounded number of messages. */
  lemma {:induction false} SignalsDrain(s: System, a: AgentId, n: nat)
    requires PhaseOf(s, a) == Sleeping && Unread(s, a) <= Waiting(s, a) && n <= Waiting(s, a)
    ensures var t := Cycles(s, a, n);
      PhaseOf(t, a) == Sleeping && Waiting(t, a) == Waiting(s, a) - n && Unread(t, a) <= Waiting(t, a)
  {
    if n > 0 {
      SignalsDrain(s, a, n - 1);
      hide *;
      OneCycle(Cycles(s, a, n - 1), a);
      CyclesNext(s, a, n);
    }
  }

  lemma QuiescentMeansRead(s: System, a: AgentId)
    requires Accounted(s, a) && PhaseOf(s, a) == Sleeping && s.pending[a] == 0 && a !in s.replaying
    ensures Unread(Cycles(s, a, Waiting(s, a)), a) == 0
  {
    SignalsDrain(s, a, Waiting(s, a));
  }

  /** Whatever happened before, a restart accounts for every agent that has registered before the undelivered messages are looked up. */
  lemma RestartCovers(s: System, targets: seq<AgentId>, a: AgentId)
    requires Possible(s, ReplayQuery(targets)) && a in s.signals.queues
    ensures Accounted(Step(s, ReplayQuery(targets)), a)
  {
    assert multiset(s.replaying + targets) == multiset(s.replaying) + multiset(targets);
  }

  // ----- Steps that can lose a wake-up -----

  /** A wake-up used without reading keeps the agent's messages accounted for exactly when there was a promise to spare. */
  lemma SkipExact(s: System, a: AgentId)
    requires Accounted(s, a) && Possible(s, Skip(a))
    ensures Accounted(Step(s, Skip(a)), a) <==> Unread(s, a) < Promised(s, a)
  {
  }

  /** A cycle that is rolled back gives its messages back without a signal: harmless exactly when enough promises remain. */
  lemma RollbackExact(s: System, a: AgentId)
    requires Accounted(s, a) && Possible(s, Rollback(a))
    ensures Accounted(Step(s, Rollback(a)), a) <==> Unread(s, a) + Taken(s, a) <= Promised(s, a)
  {
  }

  /** From any state, a worker that registers loses the signals of an old queue; it is accounted for exactly if none was needed. */
  lemma RegisterExact(s: System, a: AgentId)
    ensures Accounted(Step(s, Register(a)), a) <==> Unread(s, a) <= s.pending[a] + multiset(s.replaying)[a]
  {
  }

  const NOTHING_YET := System(Signals(map[], map[]), map[], multiset{}, [], map[], map[])

  /** The agent sleeps on an unread message, and nothing is left that would wake it. */
  predicate Lost(s: System, a: AgentId) {
    a in s.signals.queues && PhaseOf(s, a) == Sleeping && Unread(s, a) > 0 && Promised(s, a) == 0
  }

  lemma AfterNext(s0: System, events: seq<Event>, e: Event)
    requires Possible(After(s0, events), e)
    ensures After(s0, events + [e]) == Step(After(s0, events), e)
  {
    assert (events + [e])[..|events|] == events;
  }

  /** The agent is registered, with so many unread messages, signals and pending notifications and nothing else. */
  predicate Plain(s: System, a: AgentId, unread: nat, waiting: nat, pending: nat, phase: Phase) {
    a in s.signals.queues && Unread(s, a) == unread && Waiting(s, a) == waiting && s.pending[a] == pending
    && PhaseOf(s, a) == phase && Taken(s, a) == 0 && s.replaying == []
  }

  lemma SentToOne(a: AgentId)
    ensures Plain(After(NOTHING_YET, [Register(a), Send(a)]), a, 1, 0, 1, Sleeping)
  {
    AfterNext(NOTHING_YET, [], Register(a));
    assert [] + [Register(a)] == [Register(a)];
    hide After;
    AfterNext(NOTHING_YET, [Register(a)], Send(a));
    assert [Register(a)] + [Send(a)] == [Register(a), Send(a)];
  }

  /** One message is sent to a registered agent, and the agent wakes for it. */
  lemma WokenForOne(a: AgentId)
    ensures Plain(After(NOTHING_YET, [Register(a), Send(a), Notify(a)]), a, 1, 1, 0, Sleeping)
    ensures Plain(After(NOTHING_YET, [Register(a), Send(a), Notify(a), Wake(a)]), a, 1, 0, 0, Woken)
  {
    hide After;
    SentToOne(a);
    AfterNext(NOTHING_YET, [Register(a), Send(a)], Notify(a));
    assert [Register(a), Send(a)] + [Notify(a)] == [Register(a), Send(a), Notify(a)];
    AfterNext(NOTHING_YET, [Register(a), Send(a), Notify(a)], Wake(a));
    assert [Register(a), Send(a), Notify(a)] + [Wake(a)] == [Register(a), Send(a), Notify(a), Wake(a)];
  }

  /** A skipped wake-up, a rolled-back cycle and a worker that registers again each lose the only message of a short run. */
  lemma WakeupsLost(a: AgentId)
    ensures Lost(After(NOTHING_YET, [Register(a), Send(a), Notify(a), Wake(a), Skip(a)]), a)
    ensures Lost(After(NOTHING_YET, [Register(a), Send(a), Notify(a), Wake(a), BootstrapRead(a), Rollback(a)]), a)
    ensures Lost(After(NOTHING_YET, [Register(a), Send(a), Notify(a), Register(a)]), a)
  {
    WokenForOne(a);
    hide After;
    var sent, woken := [Register(a), Send(a), Notify(a)], [Register(a), Send(a), Notify(a), Wake(a)];
    AfterNext(NOTHING_YET, woken, Skip(a));
    assert woken + [Skip(a)] == [Register(a), Send(a), Notify(a), Wake(a), Skip(a)];
    AfterNext(NOTHING_YET, woken, BootstrapRead(a));
    AfterNext(NOTHING_YET, woken + [BootstrapRead(a)], Rollback(a));
    assert woken + [BootstrapRead(a)] + [Rollback(a)] == [Register(a), Send(a), Notify(a), Wake(a), BootstrapRead(a), Rollback(a)];
    AfterNext(NOTHING_YET, sent, Register(a));
    assert sent + [Register(a)] == [Register(a), Send(a), Notify(a), Register(a)];
  }
}
