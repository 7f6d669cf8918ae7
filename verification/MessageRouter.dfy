/** The router that turns messages into wake-up signals for the agents' workers. */
module MessageRouterModule {
  import opened Prelude

  type AgentId = nat

  const MAX_NOTIFY_ATTEMPTS: nat := 3

  /** Signals waiting per registered agent, and consecutive failures per agent. */
  datatype Signals = Signals(queues: map<AgentId, nat>, failures: map<AgentId, nat>)

  function Notified(s: Signals, a: AgentId): Signals {
    if a in s.queues then Signals(s.queues[a := s.queues[a] + 1], s.failures - {a})
    else s.(failures := s.failures[a := (if a in s.failures then s.failures[a] else 0) + 1])
  }

  function NotifiedAll(s: Signals, targets: seq<AgentId>): Signals {
    if targets == [] then s else Notified(NotifiedAll(s, targets[..|targets| - 1]), targets[|targets| - 1])
  }

  function Without(members: seq<AgentId>, a: AgentId): seq<AgentId> {
    if members == [] then [] else if members[0] == a then members[1..] else [members[0]] + Without(members[1..], a)
  }

  /** left is members without a, which stood at most once among them; the others keep their order. */
  ghost predicate TakenOut(members: seq<AgentId>, a: AgentId, left: seq<AgentId>) {
    if a in members then exists k :: 0 <= k < |members| && members[k] == a && left == members[..k] + members[k + 1..]
    else left == members
  }

  ghost predicate NoDuplicates(members: seq<AgentId>) {
    forall i, j :: 0 <= i < j < |members| ==> members[i] != members[j]
  }

  lemma {:induction false} WithoutIs(members: seq<AgentId>, a: AgentId)
    requires NoDuplicates(members)
    ensures NoDuplicates(Without(members, a))
    ensures forall x :: x in Without(members, a) <==> x in members && x != a
  {
    if members != [] && members[0] != a {
      var rest := members[1..];
      assert forall i, j :: 0 <= i < j < |rest| ==> rest[i] == members[i + 1] && rest[j] == members[j + 1];
      WithoutIs(rest, a);
      assert forall x :: x in members <==> x == members[0] || x in rest;
      assert forall i :: 0 <= i < |rest| ==> rest[i] != members[0];
      assert members[0] !in Without(rest, a);
    } else if members != [] {
      var rest := members[1..];
      assert forall x :: x in members <==> x == members[0] || x in rest;
      assert forall i :: 0 <= i < |rest| ==> rest[i] == members[i + 1];
    }
  }

  lemma {:induction false} WithoutAt(members: seq<AgentId>, a: AgentId) returns (k: nat)
    requires a in members
    ensures k < |members| && members[k] == a && Without(members, a) == members[..k] + members[k + 1..]
  {
    if members[0] == a {
      k := 0;
    } else {
      var rest := members[1..];
      var at := WithoutAt(rest, a);
      k := at + 1;
      assert members[..k] == [members[0]] + rest[..at] && members[k + 1..] == rest[at + 1..];
    }
  }

  lemma {:induction false} WithoutNobody(members: seq<AgentId>, a: AgentId)
    requires a !in members
    ensures Without(members, a) == members
  {
    if members != [] { WithoutNobody(members[1..], a); }
  }

  lemma WithoutKeeps(members: seq<AgentId>, a: AgentId)
    ensures TakenOut(members, a, Without(members, a))
  {
    if a in members {
      var k := WithoutAt(members, a);
    } else {
      WithoutNobody(members, a);
    }
  }

  /** Every target has one signal more for each time it is named, or one failure more if it has no queue. */
  ghost predicate Counted(s: Signals, targets: seq<AgentId>, x: AgentId, t: Signals) {
    t.queues.Keys == s.queues.Keys
    && (x in s.queues ==> t.queues[x] == s.queues[x] + multiset(targets)[x])
    && (x in targets && x in s.queues ==> x !in t.failures)
    && (x !in targets ==> (x in t.failures <==> x in s.failures) && (x in s.failures ==> t.failures[x] == s.failures[x]))
    && (x in targets && x !in s.queues ==>
          x in t.failures && t.failures[x] == (if x in s.failures then s.failures[x] else 0) + multiset(targets)[x])
  }

  lemma {:induction false} NotifiedEach(s: Signals, targets: seq<AgentId>, x: AgentId)
    ensures Counted(s, targets, x, NotifiedAll(s, targets))
  {
    if targets != [] {
      var n := |targets| - 1;
      assert targets == targets[..n] + [targets[n]];
      NotifiedEach(s, targets[..n], x);
    }
  }

  class MessageRouter {
    var queues: map<AgentId, nat>
    var notifyCounts: map<AgentId, nat>
    var clusterIndex: map<string, seq<AgentId>>

    function State(): Signals
      reads this
    {
      Signals(queues, notifyCounts)
    }

    ghost predicate Valid()
      reads this
    {
      forall name :: name in clusterIndex ==> NoDuplicates(clusterIndex[name])
    }

    constructor ()
      ensures Valid() && State() == Signals(map[], map[]) && clusterIndex == map[]
    {
      queues, notifyCounts, clusterIndex := map[], map[], map[];
    }

    /** A newly registered worker starts with an empty queue; signals of a queue it replaces are gone. */
    method Register(a: AgentId)
      requires Valid()
      modifies this
      ensures Valid() && State() == Signals(old(queues)[a := 0], old(notifyCounts) - {a}) && clusterIndex == old(clusterIndex)
    {
      queues := queues[a := 0];
      notifyCounts := notifyCounts - {a};
    }

    /** Takes an agent out of every cluster as well. */
    method Unregister(a: AgentId)
      requires Valid()
      modifies this
      ensures Valid() && State() == Signals(old(queues) - {a}, old(notifyCounts) - {a})
      ensures clusterIndex.Keys == old(clusterIndex).Keys
      ensures forall name, x :: name in clusterIndex ==> (x in clusterIndex[name] <==> x in old(clusterIndex)[name] && x != a)
      ensures forall name :: name in clusterIndex ==> TakenOut(old(clusterIndex)[name], a, clusterIndex[name])
    {
      queues := queues - {a};
      notifyCounts := notifyCounts - {a};
      var todo := clusterIndex.Keys;
      while todo != {}
        invariant todo <= clusterIndex.Keys == old(clusterIndex).Keys
        invariant queues == old(queues) - {a} && notifyCounts == old(notifyCounts) - {a}
        invariant forall name :: name in todo ==> clusterIndex[name] == old(clusterIndex)[name]
        invariant forall name :: name in clusterIndex && name !in todo ==> clusterIndex[name] == Without(old(clusterIndex)[name], a)
      {
        var name :| name in todo;
        todo := todo - {name};
        clusterIndex := clusterIndex[name := Without(clusterIndex[name], a)];
      }
      forall name | name in clusterIndex
        ensures TakenOut(old(clusterIndex)[name], a, clusterIndex[name])
        ensures NoDuplicates(clusterIndex[name]) && forall x :: x in clusterIndex[name] <==> x in old(clusterIndex)[name] && x != a
      {
        WithoutIs(old(clusterIndex)[name], a);
        WithoutKeeps(old(clusterIndex)[name], a);
      }
    }

    /** The agent is a member, once, behind those that were; no other agent joins, and no other cluster changes. */
    method RegisterClusterMember(name: string, a: AgentId)
      requires Valid()
      modifies this
      ensures Valid() && State() == old(State())
      ensures clusterIndex.Keys == old(clusterIndex).Keys + {name} && a in clusterIndex[name]
      ensures forall other :: other in old(clusterIndex) && other != name ==> clusterIndex[other] == old(clusterIndex)[other]
      ensures var members := if name in old(clusterIndex) then old(clusterIndex)[name] else [];
        members <= clusterIndex[name] && |clusterIndex[name]| == |members| + if a in members then 0 else 1
    {
      var members := if name in clusterIndex then clusterIndex[name] else [];
      if a !in members { members := members + [a]; }
      clusterIndex := clusterIndex[name := members];
    }

    /** escalate tells that the failure goes to the dead-letter table. */
    method Notify(a: AgentId) returns (escalate: bool)
      requires Valid()
      modifies this
      ensures Valid() && State() == Notified(old(State()), a) && clusterIndex == old(clusterIndex)
      ensures escalate <==> a !in queues && notifyCounts[a] >= MAX_NOTIFY_ATTEMPTS
      ensures queues.Keys == old(queues).Keys && forall x :: x in queues ==> queues[x] == old(queues)[x] + if x == a then 1 else 0
      ensures notifyCounts - {a} == old(notifyCounts) - {a} && (a in notifyCounts <==> a !in queues)
      ensures a in notifyCounts ==> notifyCounts[a] == (if a in old(notifyCounts) then old(notifyCounts)[a] else 0) + 1
    {
      if a !in queues {
        var fails := (if a in notifyCounts then notifyCounts[a] else 0) + 1;
        notifyCounts := notifyCounts[a := fails];
        return fails >= MAX_NOTIFY_ATTEMPTS;
      }
      queues := queues[a := queues[a] + 1];
      notifyCounts := notifyCounts - {a};
      return false;
    }

    method Replay(targets: seq<AgentId>)
      requires Valid()
      modifies this
      ensures Valid() && State() == NotifiedAll(old(State()), targets) && clusterIndex == old(clusterIndex)
      ensures forall x :: Counted(old(State()), targets, x, State())
    {
      hide Counted;
      forall x ensures Counted(State(), targets, x, NotifiedAll(State(), targets)) { NotifiedEach(State(), targets, x); }
      for i := 0 to |targets|
        invariant Valid() && State() == NotifiedAll(old(State()), targets[..i]) && clusterIndex == old(clusterIndex)
      {
        assert targets[..i + 1][..i] == targets[..i];
        var escalate := Notify(targets[i]);
      }
      assert targets[..|targets|] == targets;
    }

    function Depth(a: AgentId): nat
      reads this
    {
      if a in queues then queues[a] else 0
    }

    /** The registered member with the fewest waiting signals, the earliest among equals; none exactly when no member is registered. */
    method RouteToCluster(name: string, preferIdle: bool) returns (target: Option<AgentId>)
      ensures target.None? <==> name !in clusterIndex || forall x :: x in clusterIndex[name] ==> x !in queues
      ensures target.Some? ==> exists i ::
        0 <= i < |clusterIndex[name]| && clusterIndex[name][i] == target.value && target.value in queues
        && (forall j :: 0 <= j < i && clusterIndex[name][j] in queues ==> preferIdle && Depth(clusterIndex[name][j]) > Depth(target.value))
        && (preferIdle ==> forall j :: i < j < |clusterIndex[name]| && clusterIndex[name][j] in queues ==>
              Depth(target.value) <= Depth(clusterIndex[name][j]))
    {
      target := None;
      if name !in clusterIndex { return; }
      var members := clusterIndex[name];
      ghost var at := -1;
      for i := 0 to |members|
        invariant target.None? <==> forall j :: 0 <= j < i ==> members[j] !in queues
        invariant target.Some? ==> 0 <= at < i && members[at] == target.value && target.value in queues
        invariant target.Some? ==>
          forall j :: 0 <= j < at && members[j] in queues ==> preferIdle && Depth(members[j]) > Depth(target.value)
        invariant target.Some? && preferIdle ==>
          forall j :: at < j < i && members[j] in queues ==> Depth(target.value) <= Depth(members[j])
      {
        if members[i] in queues && (target.None? || (preferIdle && Depth(members[i]) < Depth(target.value))) {
          target := Some(members[i]);
          at := i;
        }
      }
    }
  }
}
