/** What one apply of a manifest does to the live agents, and when it converges. */
module ClusterConvergence {
  import opened Prelude
  import opened ClusterState

  function Labelled(memory: map<string, MemoryValue>, t: Target): map<string, MemoryValue> {
    memory["cluster_name" := Name(t.clusterName)]["cluster_labels" := Labels(t.labels)]
  }

  function Updated(r: Row, t: Target): Row {
    r.(model := t.model, memory := Some(Labelled(if r.memory.Some? then r.memory.value else map[], t)))
  }

  function NewRow(t: Target, id: Id, name: string): Row {
    Row(id, t.project, t.role, name, t.model, t.template, Some(Labelled(map[], t)))
  }

  function Fate(r: Row, t: Target, updates: set<Id>, deletes: set<Id>): seq<Row> {
    if r.id in deletes then [] else if r.id in updates then [Updated(r, t)] else [r]
  }

  /** The rows after the agents in updates were edited and those in deletes removed. */
  function Rewrite(rows: seq<Row>, t: Target, updates: set<Id>, deletes: set<Id>): seq<Row> {
    if rows == [] then [] else
      var n := |rows| - 1;
      Rewrite(rows[..n], t, updates, deletes) + Fate(rows[n], t, updates, deletes)
  }

  function Created(t: Target, names: seq<string>, ids: seq<Id>): (r: seq<Row>)
    requires |names| <= |ids|
    ensures |r| == |names|
    ensures forall k :: 0 <= k < |names| ==> r[k] == NewRow(t, ids[k], names[k])
  {
    if names == [] then [] else
      var n := |names| - 1;
      Created(t, names[..n], ids) + [NewRow(t, ids[n], names[n])]
  }

  function Updates(rows: seq<Row>, t: Target): set<Id> {
    set i | 0 <= i < |rows| && Chosen(rows, t, i) && rows[i].name in DesiredNames(t) && rows[i].model != t.model :: rows[i].id
  }

  function Deletes(rows: seq<Row>, t: Target): set<Id> {
    set i | 0 <= i < |rows| && Chosen(rows, t, i) && rows[i].name !in DesiredNames(t) :: rows[i].id
  }

  /** The wanted names no agent carries. */
  function Missing(rows: seq<Row>, t: Target, names: seq<string>): (r: seq<string>)
    ensures |r| <= |names|
    ensures forall name :: name in r <==> name in names && LastAt(rows, t, name) < 0
  {
    if names == [] then [] else
      var n := |names| - 1;
      assert names == names[..n] + [names[n]];
      Missing(rows, t, names[..n]) + if LastAt(rows, t, names[n]) < 0 then [names[n]] else []
  }

  /** The live agents after one apply, when the database hands out these ids to new agents. */
  function Applied(rows: seq<Row>, t: Target, ids: seq<Id>): seq<Row>
    requires t.replicas <= |ids|
  {
    Rewrite(rows, t, Updates(rows, t), Deletes(rows, t)) + Created(t, Missing(rows, t, DesiredNames(t)), ids)
  }

  // ----- The agent a name stands for -----

  function Holder(rows: seq<Row>, t: Target, name: string): (r: Option<Row>)
    ensures r.Some? ==> Matches(r.value, t) && r.value.name == name
  {
    if rows == [] then None else
      var n := |rows| - 1;
      if Matches(rows[n], t) && rows[n].name == name then Some(rows[n]) else Holder(rows[..n], t, name)
  }

  lemma {:induction false} HolderIsLast(rows: seq<Row>, t: Target, name: string)
    ensures Holder(rows, t, name) == if LastAt(rows, t, name) < 0 then None else Some(rows[LastAt(rows, t, name)])
  {
    if rows != [] { HolderIsLast(rows[..|rows| - 1], t, name); }
  }

  lemma {:induction false} HolderConcat(a: seq<Row>, b: seq<Row>, t: Target, name: string)
    ensures Holder(a + b, t, name) == if Holder(b, t, name).Some? then Holder(b, t, name) else Holder(a, t, name)
  {
    if b == [] {
      assert a + b == a;
    } else {
      var n := |b| - 1;
      assert (a + b)[..|a + b| - 1] == a + b[..n];
      HolderConcat(a, b[..n], t, name);
    }
  }

  lemma {:induction false} HolderCreated(t: Target, names: seq<string>, ids: seq<Id>, name: string)
    requires |names| <= |ids|
    requires forall x :: x in names ==> PrefixOf(t) <= x
    ensures Holder(Created(t, names, ids), t, name).Some? <==> name in names
    ensures name in names ==> Holder(Created(t, names, ids), t, name).value.model == t.model
  {
    if names != [] {
      var n := |names| - 1;
      assert names == names[..n] + [names[n]];
      assert forall x :: x in names[..n] ==> x in names;
      assert Created(t, names, ids)[..n] == Created(t, names[..n], ids);
      HolderCreated(t, names[..n], ids, name);
    }
  }

  /** The agent that a name stands for in one manifest, after another one was applied that did not delete it. */
  lemma {:induction false} HolderRewrite(rows: seq<Row>, t: Target, other: Target, updates: set<Id>, deletes: set<Id>, name: string)
    requires var h := Holder(rows, t, name); h.Some? ==> h.value.id !in deletes
    ensures var h := Holder(rows, t, name);
      Holder(Rewrite(rows, other, updates, deletes), t, name)
      == if h.None? then None else Some(Fate(h.value, other, updates, deletes)[0])
  {
    if rows != [] {
      var n := |rows| - 1;
      HolderConcat(Rewrite(rows[..n], other, updates, deletes), Fate(rows[n], other, updates, deletes), t, name);
      if !(Matches(rows[n], t) && rows[n].name == name) {
        HolderRewrite(rows[..n], t, other, updates, deletes, name);
      }
    }
  }

  lemma DesiredHavePrefix(t: Target)
    ensures forall name :: name in DesiredNames(t) ==> PrefixOf(t) <= name
  {
    assert forall i :: 0 <= i < t.replicas ==> PrefixOf(t) <= ReplicaName(t, i);
  }

  lemma EveryReplicaHeld(rows: seq<Row>, t: Target, ids: seq<Id>, name: string)
    requires t.replicas <= |ids| && UniqueIds(rows) && name in DesiredNames(t)
    ensures var h := Holder(Applied(rows, t, ids), t, name); h.Some? && h.value.model == t.model
  {
    hide Rewrite, Created, Missing, LastAt, Holder, DesiredNames;
    var wanted := Missing(rows, t, DesiredNames(t));
    DesiredHavePrefix(t);
    HolderConcat(Rewrite(rows, t, Updates(rows, t), Deletes(rows, t)), Created(t, wanted, ids), t, name);
    HolderCreated(t, wanted, ids, name);
    HolderIsLast(rows, t, name);
    var i := LastAt(rows, t, name);
    if i >= 0 {
      assert Chosen(rows, t, i);
      HolderRewrite(rows, t, t, Updates(rows, t), Deletes(rows, t), name);
    }
  }

  lemma {:induction false} RewriteMembers(rows: seq<Row>, t: Target, updates: set<Id>, deletes: set<Id>)
    ensures forall r :: (r in Rewrite(rows, t, updates, deletes)
      <==> exists i :: 0 <= i < |rows| && rows[i].id !in deletes && r == Fate(rows[i], t, updates, deletes)[0])
  {
    if rows != [] {
      var n := |rows| - 1;
      RewriteMembers(rows[..n], t, updates, deletes);
      assert forall i :: 0 <= i < n ==> rows[..n][i] == rows[i];
      forall r | r in Rewrite(rows[..n], t, updates, deletes)
        ensures exists i :: 0 <= i < n && rows[i].id !in deletes && r == Fate(rows[i], t, updates, deletes)[0]
      {
        var i :| 0 <= i < n && rows[..n][i].id !in deletes && r == Fate(rows[..n][i], t, updates, deletes)[0];
      }
      forall i | 0 <= i < n && rows[i].id !in deletes
        ensures Fate(rows[i], t, updates, deletes)[0] in Rewrite(rows[..n], t, updates, deletes)
      {
        assert rows[..n][i] == rows[i];
      }
    }
  }

  /** Every agent that carries a name the manifest does not want is the one its name stands for. */
  ghost predicate SurplusUnshadowed(rows: seq<Row>, t: Target) {
    forall i :: 0 <= i < |rows| && Matches(rows[i], t) && rows[i].name !in DesiredNames(t) ==> Chosen(rows, t, i)
  }

  lemma NoSurplusLeft(rows: seq<Row>, t: Target, ids: seq<Id>)
    requires t.replicas <= |ids| && UniqueIds(rows)
    ensures (forall r :: r in Applied(rows, t, ids) && Matches(r, t) ==> r.name in DesiredNames(t)) <==> SurplusUnshadowed(rows, t)
  {
    hide Rewrite, Created, Missing, LastAt, DesiredNames;
    var updates, deletes := Updates(rows, t), Deletes(rows, t);
    RewriteMembers(rows, t, updates, deletes);
    if SurplusUnshadowed(rows, t) {
      forall r | r in Rewrite(rows, t, updates, deletes) && Matches(r, t) ensures r.name in DesiredNames(t) {
        var i :| 0 <= i < |rows| && rows[i].id !in deletes && r == Fate(rows[i], t, updates, deletes)[0];
      }
    } else {
      var i :| 0 <= i < |rows| && Matches(rows[i], t) && rows[i].name !in DesiredNames(t) && !Chosen(rows, t, i);
      assert rows[i].id !in deletes;
      var r := Fate(rows[i], t, updates, deletes)[0];
      assert r in Applied(rows, t, ids) && Matches(r, t) && r.name == rows[i].name;
    }
  }

  /**
   * One apply settles the cluster exactly when no unwanted name is carried by two matching agents: the diff keeps
   * one agent per name, so a second one with the same unwanted name is never deleted by this apply.
   */
  lemma ApplySettles(rows: seq<Row>, t: Target, ids: seq<Id>)
    requires t.replicas <= |ids| && UniqueIds(rows)
    ensures Settled(Applied(rows, t, ids), t) <==> SurplusUnshadowed(rows, t)
  {
    hide Applied, LastAt, Holder, SurplusUnshadowed, ReplicaName;
    var after := Applied(rows, t, ids);
    NoSurplusLeft(rows, t, ids);
    forall k | 0 <= k < t.replicas
      ensures var i := LastAt(after, t, ReplicaName(t, k)); i >= 0 && after[i].model == t.model
    {
      assert DesiredNames(t)[k] == ReplicaName(t, k);
      EveryReplicaHeld(rows, t, ids, ReplicaName(t, k));
      HolderIsLast(after, t, ReplicaName(t, k));
    }
  }

  lemma NoneMissing(rows: seq<Row>, t: Target, names: seq<string>)
    ensures Missing(rows, t, names) == [] <==> forall name :: name in names ==> LastAt(rows, t, name) >= 0
  {
    hide Missing, LastAt;
    if Missing(rows, t, names) != [] {
      assert Missing(rows, t, names)[0] in Missing(rows, t, names);
    }
  }

  /** A settled cluster is a fixpoint: applying the manifest again changes no agent. */
  lemma SettledIsStable(rows: seq<Row>, t: Target, ids: seq<Id>)
    requires t.replicas <= |ids| && UniqueIds(rows) && Settled(rows, t)
    ensures Applied(rows, t, ids) == rows
  {
    hide LastAt, ReplicaName;
    assert forall name :: name in DesiredNames(t) ==> LastAt(rows, t, name) >= 0 && rows[LastAt(rows, t, name)].model == t.model by {
      assert forall k :: 0 <= k < t.replicas ==> DesiredNames(t)[k] == ReplicaName(t, k);
    }
    NoneMissing(rows, t, DesiredNames(t));
    assert Deletes(rows, t) == {};
    assert Updates(rows, t) == {};
    RewriteNothing(rows, t, {}, {});
  }

  lemma {:induction false} RewriteNothing(rows: seq<Row>, t: Target, updates: set<Id>, deletes: set<Id>)
    requires forall i :: 0 <= i < |rows| ==> rows[i].id !in updates && rows[i].id !in deletes
    ensures Rewrite(rows, t, updates, deletes) == rows
  {
    if rows != [] { RewriteNothing(rows[..|rows| - 1], t, updates, deletes); }
  }

  // ----- Agents outside the cluster -----

  function Outside(rows: seq<Row>, t: Target): seq<Row> {
    if rows == [] then [] else
      var n := |rows| - 1;
      Outside(rows[..n], t) + if Matches(rows[n], t) then [] else [rows[n]]
  }

  lemma {:induction false} OutsideConcat(a: seq<Row>, b: seq<Row>, t: Target)
    ensures Outside(a + b, t) == Outside(a, t) + Outside(b, t)
  {
    if b == [] {
      assert a + b == a;
    } else {
      var n := |b| - 1;
      assert (a + b)[..|a + b| - 1] == a + b[..n];
      OutsideConcat(a, b[..n], t);
    }
  }

  lemma RewriteLast(rows: seq<Row>, t: Target, updates: set<Id>, deletes: set<Id>)
    requires rows != []
    ensures Rewrite(rows, t, updates, deletes)
      == Rewrite(rows[..|rows| - 1], t, updates, deletes) + Fate(rows[|rows| - 1], t, updates, deletes)
  {
  }

  lemma UpdatedMatches(r: Row, t: Target)
    ensures Matches(Updated(r, t), t) <==> Matches(r, t)
  {
  }

  lemma CreatedMatch(rows: seq<Row>, t: Target, ids: seq<Id>)
    requires t.replicas <= |ids|
    ensures forall r :: r in Created(t, Missing(rows, t, DesiredNames(t)), ids) ==> Matches(r, t) && r.name in DesiredNames(t)
  {
    hide Created, Missing, LastAt, DesiredNames;
    DesiredHavePrefix(t);
    var names := Missing(rows, t, DesiredNames(t));
    assert forall k :: 0 <= k < |names| ==> names[k] in names;
  }

  lemma OutsideFate(r: Row, t: Target, updates: set<Id>, deletes: set<Id>)
    requires !Matches(r, t) ==> r.id !in updates && r.id !in deletes
    ensures Outside(Fate(r, t, updates, deletes), t) == Outside([r], t)
  {
    UpdatedMatches(r, t);
  }

  lemma OutsideStep(rows: seq<Row>, t: Target, updates: set<Id>, deletes: set<Id>)
    requires rows != []
    requires var r := rows[|rows| - 1]; !Matches(r, t) ==> r.id !in updates && r.id !in deletes
    requires Outside(Rewrite(rows[..|rows| - 1], t, updates, deletes), t) == Outside(rows[..|rows| - 1], t)
    ensures Outside(Rewrite(rows, t, updates, deletes), t) == Outside(rows, t)
  {
    hide Matches, Rewrite, Outside, Fate;
    var n := |rows| - 1;
    RewriteLast(rows, t, updates, deletes);
    OutsideConcat(Rewrite(rows[..n], t, updates, deletes), Fate(rows[n], t, updates, deletes), t);
    OutsideFate(rows[n], t, updates, deletes);
    OutsideConcat(rows[..n], [rows[n]], t);
    assert rows == rows[..n] + [rows[n]];
  }

  lemma {:induction false} OutsideRewrite(rows: seq<Row>, t: Target, updates: set<Id>, deletes: set<Id>)
    requires forall i :: 0 <= i < |rows| && !Matches(rows[i], t) ==> rows[i].id !in updates && rows[i].id !in deletes
    ensures Outside(Rewrite(rows, t, updates, deletes), t) == Outside(rows, t)
  {
    hide Matches, Fate;
    if rows != [] {
      OutsideRewrite(rows[..|rows| - 1], t, updates, deletes);
      OutsideStep(rows, t, updates, deletes);
    }
  }

  lemma {:induction false} OutsideNone(rows: seq<Row>, t: Target)
    requires forall i :: 0 <= i < |rows| ==> Matches(rows[i], t)
    ensures Outside(rows, t) == []
  {
    if rows != [] { OutsideNone(rows[..|rows| - 1], t); }
  }

  /** Agents of another project, another role or another name prefix keep their fields and their order. */
  lemma OutsidersUntouched(rows: seq<Row>, t: Target, ids: seq<Id>)
    requires t.replicas <= |ids| && UniqueIds(rows)
    ensures Outside(Applied(rows, t, ids), t) == Outside(rows, t)
  {
    hide Rewrite, Created, Missing, LastAt, DesiredNames;
    var created := Created(t, Missing(rows, t, DesiredNames(t)), ids);
    OutsideConcat(Rewrite(rows, t, Updates(rows, t), Deletes(rows, t)), created, t);
    OutsideRewrite(rows, t, Updates(rows, t), Deletes(rows, t));
    CreatedMatch(rows, t, ids);
    OutsideNone(created, t);
  }
}
