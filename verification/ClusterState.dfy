/** The live agents a cluster manifest is compared with, and which of them it claims. */
module ClusterState {
  import opened Text
  import opened Prelude

  type Id = nat

  datatype MemoryValue = Name(name: string) | Labels(labels: map<string, string>) | Other(json: string)

  datatype Row = Row(id: Id, project: string, role: string, name: string, model: string, template: Option<string>,
                     memory: Option<map<string, MemoryValue>>)

  /** What a manifest asks for in one project. */
  datatype Target = Target(project: string, clusterName: string, displayNamePrefix: string, replicas: nat, role: string,
                           model: string, template: Option<string>, labels: map<string, string>)

  function PrefixOf(t: Target): string {
    if t.displayNamePrefix != "" then t.displayNamePrefix else t.clusterName
  }

  /** An agent belongs to the cluster by project, role and the start of its display name. */
  predicate Matches(r: Row, t: Target) {
    r.project == t.project && r.role == t.role && PrefixOf(t) <= r.name
  }

  function ReplicaName(t: Target, i: nat): string {
    PrefixOf(t) + "-" + Decimal(i + 1)
  }

  function DesiredNames(t: Target): (r: seq<string>)
    ensures |r| == t.replicas
  {
    seq(t.replicas, i requires 0 <= i < t.replicas => ReplicaName(t, i))
  }

  lemma ReplicaNamesDistinct(t: Target, i: nat, j: nat)
    requires ReplicaName(t, i) == ReplicaName(t, j)
    ensures i == j
  {
    var k := |PrefixOf(t)| + 1;
    assert ReplicaName(t, i)[k..] == Decimal(i + 1) && ReplicaName(t, j)[k..] == Decimal(j + 1);
    DecimalInjective(i + 1, j + 1);
  }

  /** The position of the last matching agent with this name, the one a dict keyed by name ends up with; or -1. */
  function LastAt(rows: seq<Row>, t: Target, name: string): (r: int)
    ensures -1 <= r < |rows|
    ensures r >= 0 ==> Matches(rows[r], t) && rows[r].name == name
    ensures forall j :: r < j < |rows| ==> !(Matches(rows[j], t) && rows[j].name == name)
  {
    if rows == [] then -1 else
      var n := |rows| - 1;
      if Matches(rows[n], t) && rows[n].name == name then n else LastAt(rows[..n], t, name)
  }

  /** The agent at i is the one its name stands for. */
  predicate Chosen(rows: seq<Row>, t: Target, i: nat)
    requires i < |rows|
  {
    Matches(rows[i], t) && LastAt(rows, t, rows[i].name) == i
  }

  ghost predicate UniqueIds(rows: seq<Row>) {
    forall i, j :: 0 <= i < j < |rows| ==> rows[i].id != rows[j].id
  }

  /** The distinct names of matching agents, in order of first appearance. */
  function FirstNames(rows: seq<Row>, t: Target): (r: seq<string>)
    ensures forall name :: name in r <==> LastAt(rows, t, name) >= 0
  {
    if rows == [] then [] else
      var n := |rows| - 1;
      FirstNames(rows[..n], t)
      + if Matches(rows[n], t) && LastAt(rows[..n], t, rows[n].name) < 0 then [rows[n].name] else []
  }

  // ----- The diff -----

  datatype Action = Create | Update | Delete | Noop

  datatype DiffItem = DiffItem(action: Action, agentId: Option<Id>, name: string)

  function DesiredItem(rows: seq<Row>, t: Target, name: string): DiffItem {
    var i := LastAt(rows, t, name);
    if i < 0 then DiffItem(Create, None, name)
    else if rows[i].model != t.model || rows[i].role != t.role then DiffItem(Update, Some(rows[i].id), name)
    else DiffItem(Noop, Some(rows[i].id), name)
  }

  function DesiredItems(rows: seq<Row>, t: Target, names: seq<string>): seq<DiffItem> {
    if names == [] then [] else
      var n := |names| - 1;
      DesiredItems(rows, t, names[..n]) + [DesiredItem(rows, t, names[n])]
  }

  function SurplusItems(rows: seq<Row>, t: Target, names: seq<string>): seq<DiffItem>
    requires forall name :: name in names ==> LastAt(rows, t, name) >= 0
  {
    if names == [] then [] else
      var n := |names| - 1;
      assert names[n] in names && forall x :: x in names[..n] ==> x in names;
      SurplusItems(rows, t, names[..n])
      + if names[n] in DesiredNames(t) then [] else [DiffItem(Delete, Some(rows[LastAt(rows, t, names[n])].id), names[n])]
  }

  function Diff(rows: seq<Row>, t: Target): seq<DiffItem> {
    DesiredItems(rows, t, DesiredNames(t)) + SurplusItems(rows, t, FirstNames(rows, t))
  }

  predicate HasChanges(items: seq<DiffItem>) {
    exists item :: item in items && item.action != Noop
  }

  /** Nothing to do: every replica is there with the right model, and no other agent matches. */
  ghost predicate Settled(rows: seq<Row>, t: Target) {
    (forall k :: 0 <= k < t.replicas ==>
       var i := LastAt(rows, t, ReplicaName(t, k)); i >= 0 && rows[i].model == t.model)
    && forall i :: 0 <= i < |rows| && Matches(rows[i], t) ==> rows[i].name in DesiredNames(t)
  }

  lemma {:induction false} DesiredItemsAt(rows: seq<Row>, t: Target, names: seq<string>)
    ensures |DesiredItems(rows, t, names)| == |names|
    ensures forall k :: 0 <= k < |names| ==> DesiredItems(rows, t, names)[k] == DesiredItem(rows, t, names[k])
  {
    if names != [] { DesiredItemsAt(rows, t, names[..|names| - 1]); }
  }

  lemma {:induction false} SurplusItemsNone(rows: seq<Row>, t: Target, names: seq<string>)
    requires forall name :: name in names ==> LastAt(rows, t, name) >= 0
    ensures SurplusItems(rows, t, names) == [] <==> forall name :: name in names ==> name in DesiredNames(t)
    ensures forall item :: item in SurplusItems(rows, t, names) ==> item.action == Delete
  {
    hide DesiredNames;
    if names != [] {
      var n := |names| - 1;
      assert forall x :: x in names <==> x in names[..n] || x == names[n];
      SurplusItemsNone(rows, t, names[..n]);
    }
  }

  lemma SettledMeansNoChanges(rows: seq<Row>, t: Target)
    requires Settled(rows, t)
    ensures !HasChanges(Diff(rows, t))
  {
    hide LastAt, FirstNames, SurplusItems, DesiredItems, ReplicaName;
    var wanted := DesiredItems(rows, t, DesiredNames(t));
    DesiredItemsAt(rows, t, DesiredNames(t));
    SurplusItemsNone(rows, t, FirstNames(rows, t));
    assert forall name :: name in FirstNames(rows, t) ==> name in DesiredNames(t);
    assert Diff(rows, t) == wanted;
    forall k | 0 <= k < |wanted| ensures wanted[k].action == Noop {
      assert wanted[k] == DesiredItem(rows, t, ReplicaName(t, k));
      assert Matches(rows[LastAt(rows, t, ReplicaName(t, k))], t);
    }
  }

  lemma SurplusIsChange(rows: seq<Row>, t: Target)
    ensures SurplusItems(rows, t, FirstNames(rows, t)) != [] ==> HasChanges(Diff(rows, t))
  {
    hide LastAt, FirstNames, SurplusItems, DesiredItems, ReplicaName, Matches;
    var wanted, surplus := DesiredItems(rows, t, DesiredNames(t)), SurplusItems(rows, t, FirstNames(rows, t));
    SurplusItemsNone(rows, t, FirstNames(rows, t));
    if surplus != [] {
      assert Diff(rows, t)[|wanted|] == surplus[0] && surplus[0] in surplus;
    }
  }

  lemma NoChangesMeansSettled(rows: seq<Row>, t: Target)
    requires !HasChanges(Diff(rows, t))
    ensures Settled(rows, t)
  {
    hide LastAt, FirstNames, SurplusItems, DesiredItems, ReplicaName, Matches;
    var wanted := DesiredItems(rows, t, DesiredNames(t));
    DesiredItemsAt(rows, t, DesiredNames(t));
    forall k | 0 <= k < t.replicas
      ensures var i := LastAt(rows, t, ReplicaName(t, k)); i >= 0 && rows[i].model == t.model
    {
      assert Diff(rows, t)[k] == wanted[k] == DesiredItem(rows, t, ReplicaName(t, k));
    }
    SurplusItemsNone(rows, t, FirstNames(rows, t));
    SurplusIsChange(rows, t);
    forall i | 0 <= i < |rows| && Matches(rows[i], t) ensures rows[i].name in DesiredNames(t) {
      assert rows[i].name in FirstNames(rows, t);
    }
  }

  /** The diff reports no change exactly when the live agents are settled. */
  lemma DiffDetectsChanges(rows: seq<Row>, t: Target)
    ensures !HasChanges(Diff(rows, t)) <==> Settled(rows, t)
  {
    if Settled(rows, t) { SettledMeansNoChanges(rows, t); }
    if !HasChanges(Diff(rows, t)) { NoChangesMeansSettled(rows, t); }
  }
}
