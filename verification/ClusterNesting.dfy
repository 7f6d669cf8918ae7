/** What applying one manifest does to the cluster of another. */
module ClusterNesting {
  import opened Prelude
  import opened ClusterState
  import opened ClusterConvergence
  import opened ClusterCount

  predicate SameSpace(a: Target, b: Target) {
    a.project == b.project && a.role == b.role
  }

  /**
   * Every replica that b wants and whose name starts like a's is one that a wants, for the same model; and a wants no name that
   * starts like b's and that b does not want.
   */
  ghost predicate Compatible(a: Target, b: Target) {
    (forall name :: name in DesiredNames(b) && PrefixOf(a) <= name ==> name in DesiredNames(a) && a.model == b.model)
    && forall name :: name in DesiredNames(a) && PrefixOf(b) <= name ==> name in DesiredNames(b)
  }

  /** Settled, said of the agents that names stand for. */
  lemma SettledHolders(rows: seq<Row>, t: Target)
    ensures Settled(rows, t) <==>
      (forall name :: name in DesiredNames(t) ==> Holder(rows, t, name).Some? && Holder(rows, t, name).value.model == t.model)
      && forall r :: r in rows && Matches(r, t) ==> r.name in DesiredNames(t)
  {
    hide LastAt, Holder, Matches, ReplicaName;
    forall name ensures Holder(rows, t, name) == if LastAt(rows, t, name) < 0 then None else Some(rows[LastAt(rows, t, name)]) {
      HolderIsLast(rows, t, name);
    }
    assert forall k :: 0 <= k < t.replicas ==> DesiredNames(t)[k] == ReplicaName(t, k);
  }

  /** The agent that a wanted name of b stands for, as the manifest a sees it. */
  lemma SeenBy(rows: seq<Row>, a: Target, b: Target, name: string)
    requires UniqueIds(rows) && NamesDistinct(rows, b) && Holder(rows, b, name).Some?
    ensures var r := Holder(rows, b, name).value;
      (SameSpace(a, b) && PrefixOf(a) <= name ==>
         LastAt(rows, a, name) >= 0
         && (r.id in Deletes(rows, a) <==> name !in DesiredNames(a))
         && (r.id in Updates(rows, a) <==> name in DesiredNames(a) && r.model != a.model))
      && (!(SameSpace(a, b) && PrefixOf(a) <= name) ==> r.id !in Deletes(rows, a) && r.id !in Updates(rows, a))
  {
    hide DesiredNames, Holder;
    HolderIsLast(rows, b, name);
    var i := LastAt(rows, b, name);
    if SameSpace(a, b) && PrefixOf(a) <= name {
      assert Matches(rows[i], a);
      assert LastAt(rows, a, name) == i;
      assert Chosen(rows, a, i);
    } else {
      assert !Matches(rows[i], a);
    }
  }

  /** The agent is deleted, and no other one carries the name. */
  lemma {:induction false} HolderDeleted(rows: seq<Row>, t: Target, other: Target, updates: set<Id>, deletes: set<Id>, name: string)
    requires forall i :: 0 <= i < |rows| && Matches(rows[i], t) && rows[i].name == name ==> rows[i].id in deletes
    ensures Holder(Rewrite(rows, other, updates, deletes), t, name).None?
  {
    if rows != [] {
      var n := |rows| - 1;
      HolderDeleted(rows[..n], t, other, updates, deletes, name);
      HolderConcat(Rewrite(rows[..n], other, updates, deletes), Fate(rows[n], other, updates, deletes), t, name);
    }
  }

  lemma {:induction false} HolderAbsent(rows: seq<Row>, t: Target, name: string)
    requires forall i :: 0 <= i < |rows| ==> !(Matches(rows[i], t) && rows[i].name == name)
    ensures Holder(rows, t, name).None?
  {
    if rows != [] { HolderAbsent(rows[..|rows| - 1], t, name); }
  }

  /** A replica of b is held with b's model after a was applied exactly when a does not claim its name, or wants it too. */
  lemma ReplicaKept(rows: seq<Row>, a: Target, b: Target, ids: seq<Id>, name: string)
    requires a.replicas <= |ids| && UniqueIds(rows) && NamesDistinct(rows, b)
    requires Holder(rows, b, name).Some? && Holder(rows, b, name).value.model == b.model
    ensures var h := Holder(Applied(rows, a, ids), b, name);
      h.Some? && h.value.model == b.model
      <==> (SameSpace(a, b) && PrefixOf(a) <= name ==> name in DesiredNames(a) && a.model == b.model)
  {
    hide DesiredNames, Holder, Created, Rewrite, Missing, LastAt, Updates, Deletes;
    var updates, deletes, missing := Updates(rows, a), Deletes(rows, a), Missing(rows, a, DesiredNames(a));
    var created, r := Created(a, missing, ids), Holder(rows, b, name).value;
    SeenBy(rows, a, b, name);
    HolderConcat(Rewrite(rows, a, updates, deletes), created, b, name);
    DesiredHavePrefix(a);
    assert forall k :: 0 <= k < |missing| ==> missing[k] in missing;
    HolderAbsent(created, b, name);
    if r.id in deletes {
      OnlyOne(rows, b, name);
      HolderDeleted(rows, b, a, updates, deletes, name);
    } else {
      HolderRewrite(rows, b, a, updates, deletes, name);
    }
  }

  lemma OnlyOne(rows: seq<Row>, t: Target, name: string)
    requires NamesDistinct(rows, t) && Holder(rows, t, name).Some?
    ensures forall i :: 0 <= i < |rows| && Matches(rows[i], t) && rows[i].name == name ==> rows[i] == Holder(rows, t, name).value
  {
    hide Holder, LastAt;
    HolderIsLast(rows, t, name);
  }

  /** What a creates does not intrude on b exactly when a wants no name of b's that b does not want. */
  lemma NothingIntrudes(rows: seq<Row>, a: Target, b: Target, ids: seq<Id>)
    requires a.replicas <= |ids| && Settled(rows, b)
    ensures (forall r :: r in Applied(rows, a, ids) && Matches(r, b) ==> r.name in DesiredNames(b))
      <==> (SameSpace(a, b) ==> forall name :: name in DesiredNames(a) && PrefixOf(b) <= name ==> name in DesiredNames(b))
  {
    hide DesiredNames, Holder, Created, Rewrite, Missing, LastAt, Updates, Deletes;
    var updates, deletes, missing := Updates(rows, a), Deletes(rows, a), Missing(rows, a, DesiredNames(a));
    var created := Created(a, missing, ids);
    RewriteMembers(rows, a, updates, deletes);
    DesiredHavePrefix(a);
    forall r | r in Rewrite(rows, a, updates, deletes) && Matches(r, b) ensures r.name in DesiredNames(b) {
      var i :| 0 <= i < |rows| && rows[i].id !in deletes && r == Fate(rows[i], a, updates, deletes)[0];
      assert Matches(rows[i], b) && rows[i].name == r.name;
    }
    forall name | name in DesiredNames(a) && SameSpace(a, b) && PrefixOf(b) <= name && name !in DesiredNames(b)
      ensures exists r :: r in Applied(rows, a, ids) && Matches(r, b) && r.name == name
    {
      assert LastAt(rows, a, name) >= 0 ==> Matches(rows[LastAt(rows, a, name)], b);
      var k :| 0 <= k < |missing| && missing[k] == name;
      assert created[k] in Applied(rows, a, ids) && Matches(created[k], b);
    }
    forall r | r in created && Matches(r, b) ensures SameSpace(a, b) && r.name in DesiredNames(a) && PrefixOf(b) <= r.name {
      var k :| 0 <= k < |created| && created[k] == r;
      assert missing[k] in missing;
    }
  }

  /**
   * A cluster that is settled, with different names, is still settled after another manifest was applied if and only if the two
   * are about different projects or roles, or neither claims an agent of the other that it does not want itself.
   */
  lemma OtherManifest(rows: seq<Row>, a: Target, b: Target, ids: seq<Id>)
    requires a.replicas <= |ids| && UniqueIds(rows) && Settled(rows, b) && NamesDistinct(rows, b)
    ensures Settled(Applied(rows, a, ids), b) <==> (SameSpace(a, b) ==> Compatible(a, b))
  {
    hide DesiredNames, Holder, Applied, Settled, Matches;
    SettledHolders(rows, b);
    SettledHolders(Applied(rows, a, ids), b);
    NothingIntrudes(rows, a, b, ids);
    forall name | name in DesiredNames(b)
      ensures var h := Holder(Applied(rows, a, ids), b, name);
        h.Some? && h.value.model == b.model
        <==> (SameSpace(a, b) && PrefixOf(a) <= name ==> name in DesiredNames(a) && a.model == b.model)
    {
      ReplicaKept(rows, a, b, ids, name);
    }
  }

  /** A name that starts like another cluster's claims its agents: applying "web" deletes "web2-1" of a settled "web2". */
  lemma NestedPrefix()
    ensures var web := Target("p", "web", "", 1, "worker", "m", None, map[]);
      var web2 := web.(clusterName := "web2");
      !Compatible(web, web2)
      && forall rows: seq<Row>, ids: seq<Id> :: |ids| >= 1 && UniqueIds(rows) && Settled(rows, web2) && NamesDistinct(rows, web2) ==>
           !Settled(Applied(rows, web, ids), web2)
  {
    hide Applied, Settled, NamesDistinct, UniqueIds;
    var web := Target("p", "web", "", 1, "worker", "m", None, map[]);
    var web2 := web.(clusterName := "web2");
    assert DesiredNames(web) == [ReplicaName(web, 0)] && DesiredNames(web2) == [ReplicaName(web2, 0)];
    assert ReplicaName(web, 0)[3] == '-' && ReplicaName(web2, 0)[3] == '2';
    assert ReplicaName(web2, 0) in DesiredNames(web2) && PrefixOf(web) <= ReplicaName(web2, 0);
    forall rows: seq<Row>, ids: seq<Id> | |ids| >= 1 && UniqueIds(rows) && Settled(rows, web2) && NamesDistinct(rows, web2)
      ensures !Settled(Applied(rows, web, ids), web2)
    {
      OtherManifest(rows, web, web2, ids);
    }
  }
}
