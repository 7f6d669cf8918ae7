/** How many agents a cluster has after one apply. */
module ClusterCount {
  import opened Text
  import opened Prelude
  import opened ClusterState
  import opened ClusterConvergence

  function MatchCount(rows: seq<Row>, t: Target): nat {
    if rows == [] then 0 else MatchCount(rows[..|rows| - 1], t) + if Matches(rows[|rows| - 1], t) then 1 else 0
  }

  /** The different names the matching agents carry. */
  function MatchedNames(rows: seq<Row>, t: Target): set<string> {
    set i | 0 <= i < |rows| && Matches(rows[i], t) :: rows[i].name
  }

  ghost predicate NamesDistinct(rows: seq<Row>, t: Target) {
    forall i, j :: 0 <= i < j < |rows| && Matches(rows[i], t) && Matches(rows[j], t) ==> rows[i].name != rows[j].name
  }

  lemma {:induction false} MatchCountConcat(a: seq<Row>, b: seq<Row>, t: Target)
    ensures MatchCount(a + b, t) == MatchCount(a, t) + MatchCount(b, t)
  {
    hide Matches;
    if b == [] {
      assert a + b == a;
    } else {
      assert (a + b)[..|a + b| - 1] == a + b[..|b| - 1];
      MatchCountConcat(a, b[..|b| - 1], t);
    }
  }

  lemma {:induction false} MatchCountAll(rows: seq<Row>, t: Target)
    requires forall r :: r in rows ==> Matches(r, t)
    ensures MatchCount(rows, t) == |rows|
  {
    hide Matches;
    if rows != [] {
      assert forall r :: r in rows[..|rows| - 1] ==> r in rows;
      MatchCountAll(rows[..|rows| - 1], t);
    }
  }

  function MatchingIds(rows: seq<Row>, t: Target): set<Id> {
    set i | 0 <= i < |rows| && Matches(rows[i], t) :: rows[i].id
  }

  lemma MatchingIdsLast(rows: seq<Row>, t: Target)
    requires rows != [] && UniqueIds(rows)
    ensures var n := |rows| - 1;
      MatchingIds(rows, t) == MatchingIds(rows[..n], t) + (if Matches(rows[n], t) then {rows[n].id} else {})
      && UniqueIds(rows[..n]) && (forall i :: 0 <= i < n ==> rows[..n][i].id != rows[n].id)
  {
    hide Matches;
    var n := |rows| - 1;
    assert forall i :: 0 <= i < n ==> rows[..n][i] == rows[i];
    forall id | id in MatchingIds(rows, t) && id != rows[n].id ensures id in MatchingIds(rows[..n], t) {
      var i :| 0 <= i < |rows| && Matches(rows[i], t) && rows[i].id == id;
      assert rows[..n][i] == rows[i];
    }
  }

  lemma MatchCountFate(r: Row, t: Target, updates: set<Id>, deletes: set<Id>)
    ensures MatchCount(Fate(r, t, updates, deletes), t) == if r.id !in deletes && Matches(r, t) then 1 else 0
  {
    UpdatedMatches(r, t);
  }

  lemma MatchCountLast(rows: seq<Row>, t: Target)
    requires rows != []
    ensures MatchCount(rows, t) == MatchCount(rows[..|rows| - 1], t) + if Matches(rows[|rows| - 1], t) then 1 else 0
  {
  }

  lemma MatchCountStep(rows: seq<Row>, t: Target, updates: set<Id>, deletes: set<Id>, fewer: set<Id>)
    requires rows != [] && fewer == deletes - {rows[|rows| - 1].id}
    requires Matches(rows[|rows| - 1], t) || rows[|rows| - 1].id !in deletes
    requires MatchCount(Rewrite(rows[..|rows| - 1], t, updates, deletes), t) + |fewer| == MatchCount(rows[..|rows| - 1], t)
    ensures MatchCount(Rewrite(rows, t, updates, deletes), t) + |deletes| == MatchCount(rows, t)
  {
    hide *;
    var n := |rows| - 1;
    RewriteLast(rows, t, updates, deletes);
    MatchCountLast(rows, t);
    MatchCountConcat(Rewrite(rows[..n], t, updates, deletes), Fate(rows[n], t, updates, deletes), t);
    MatchCountFate(rows[n], t, updates, deletes);
    if rows[n].id in deletes { assert deletes == fewer + {rows[n].id}; } else { assert deletes == fewer; }
  }

  /** Only the deletions change the number of matching agents. */
  lemma {:induction false} MatchCountRewrite(rows: seq<Row>, t: Target, updates: set<Id>, deletes: set<Id>)
    requires UniqueIds(rows) && deletes <= MatchingIds(rows, t)
    ensures MatchCount(Rewrite(rows, t, updates, deletes), t) + |deletes| == MatchCount(rows, t)
  {
    if rows == [] {
      assert deletes == {};
    } else {
      hide Matches, Rewrite, MatchCount, MatchingIds;
      var fewer := deletes - {rows[|rows| - 1].id};
      MatchingIdsLast(rows, t);
      MatchingIdsUnique(rows, t);
      MatchCountRewrite(rows[..|rows| - 1], t, updates, fewer);
      RewriteSame(rows[..|rows| - 1], t, updates, deletes, fewer);
      MatchCountStep(rows, t, updates, deletes, fewer);
    }
  }

  lemma MatchingIdsUnique(rows: seq<Row>, t: Target)
    requires UniqueIds(rows)
    ensures forall i :: 0 <= i < |rows| && rows[i].id in MatchingIds(rows, t) ==> Matches(rows[i], t)
  {
    hide Matches;
  }

  lemma {:induction false} RewriteSame(rows: seq<Row>, t: Target, updates: set<Id>, a: set<Id>, b: set<Id>)
    requires forall i :: 0 <= i < |rows| ==> (rows[i].id in a <==> rows[i].id in b)
    ensures Rewrite(rows, t, updates, a) == Rewrite(rows, t, updates, b)
  {
    if rows != [] { RewriteSame(rows[..|rows| - 1], t, updates, a, b); }
  }

  ghost predicate Distinct<T>(s: seq<T>) {
    forall i, j :: 0 <= i < j < |s| ==> s[i] != s[j]
  }

  lemma {:induction false} DistinctCount<T>(s: seq<T>)
    ensures |ToSet(s)| <= |s|
    ensures |ToSet(s)| == |s| <==> Distinct(s)
  {
    if s == [] {
      assert ToSet(s) == {};
    } else {
      var n := |s| - 1;
      assert s == s[..n] + [s[n]];
      assert ToSet(s) == ToSet(s[..n]) + {s[n]};
      DistinctCount(s[..n]);
      assert s[n] in ToSet(s[..n]) <==> s[n] in s[..n];
    }
  }

  lemma {:induction false} MissingDistinct(rows: seq<Row>, t: Target, names: seq<string>)
    requires Distinct(names)
    ensures Distinct(Missing(rows, t, names))
  {
    if names != [] {
      var n := |names| - 1;
      hide LastAt;
      MissingDistinct(rows, t, names[..n]);
      assert names[n] !in names[..n];
      var before := Missing(rows, t, names[..n]);
      assert forall k :: 0 <= k < |before| ==> before[k] in before;
    }
  }

  lemma DesiredDistinct(t: Target)
    ensures Distinct(DesiredNames(t))
  {
    forall i, j | 0 <= i < j < t.replicas ensures DesiredNames(t)[i] != DesiredNames(t)[j] {
      if ReplicaName(t, i) == ReplicaName(t, j) { ReplicaNamesDistinct(t, i, j); }
    }
  }

  lemma {:induction false} ImageSize(names: set<string>, ids: set<Id>, f: map<string, Id>)
    requires names <= f.Keys && ids == set name | name in names :: f[name]
    requires forall x, y :: x in names && y in names && f[x] == f[y] ==> x == y
    ensures |ids| == |names|
  {
    if names == {} {
      assert ids == {};
    } else {
      var name :| name in names;
      ImageSize(names - {name}, ids - {f[name]}, f);
    }
  }

  lemma SurplusHeld(rows: seq<Row>, t: Target)
    ensures forall name :: name in MatchedNames(rows, t) <==> LastAt(rows, t, name) >= 0
  {
    hide LastAt, Matches;
    forall name ensures name in MatchedNames(rows, t) <==> LastAt(rows, t, name) >= 0 {
      if LastAt(rows, t, name) >= 0 {
        assert rows[LastAt(rows, t, name)].name == name;
      }
    }
  }

  /** The deleted agents are the ones the surplus names stand for. */
  lemma DeletesAre(rows: seq<Row>, t: Target, id: Id)
    ensures id in Deletes(rows, t)
      <==> exists name :: name in MatchedNames(rows, t) && name !in DesiredNames(t)
                          && LastAt(rows, t, name) >= 0 && rows[LastAt(rows, t, name)].id == id
  {
    hide LastAt, DesiredNames, Matches;
    if id in Deletes(rows, t) {
      var i :| 0 <= i < |rows| && Chosen(rows, t, i) && rows[i].name !in DesiredNames(t) && rows[i].id == id;
      assert rows[i].name in MatchedNames(rows, t);
    }
    if name :| name in MatchedNames(rows, t) && name !in DesiredNames(t)
               && LastAt(rows, t, name) >= 0 && rows[LastAt(rows, t, name)].id == id {
      assert Chosen(rows, t, LastAt(rows, t, name));
    }
  }

  /** One agent is deleted for every different surplus name. */
  lemma DeletesCount(rows: seq<Row>, t: Target)
    requires UniqueIds(rows)
    ensures |Deletes(rows, t)| == |MatchedNames(rows, t) - ToSet(DesiredNames(t))|
  {
    hide LastAt, DesiredNames, Matches, Deletes, MatchedNames;
    var surplus := MatchedNames(rows, t) - ToSet(DesiredNames(t));
    SurplusHeld(rows, t);
    var f := map name | name in surplus :: rows[LastAt(rows, t, name)].id;
    forall id ensures id in Deletes(rows, t) <==> id in set name | name in surplus :: f[name] {
      DeletesAre(rows, t, id);
      if id in Deletes(rows, t) {
        var name :| name in surplus && rows[LastAt(rows, t, name)].id == id;
        assert f[name] == id;
      }
    }
    ImageSize(surplus, Deletes(rows, t), f);
  }

  lemma MissingCount(rows: seq<Row>, t: Target)
    ensures |Missing(rows, t, DesiredNames(t))| == |ToSet(DesiredNames(t)) - MatchedNames(rows, t)|
  {
    hide LastAt, DesiredNames, Matches, Missing;
    var missing := Missing(rows, t, DesiredNames(t));
    DesiredDistinct(t);
    MissingDistinct(rows, t, DesiredNames(t));
    DistinctCount(missing);
    SurplusHeld(rows, t);
    assert ToSet(missing) == ToSet(DesiredNames(t)) - MatchedNames(rows, t);
  }

  /** One apply turns one agent per different matched name into exactly replicas agents; every duplicate beyond that stays. */
  lemma CountAfterApply(rows: seq<Row>, t: Target, ids: seq<Id>)
    requires t.replicas <= |ids| && UniqueIds(rows)
    ensures MatchCount(Applied(rows, t, ids), t) == MatchCount(rows, t) - |MatchedNames(rows, t)| + t.replicas
  {
    hide LastAt, DesiredNames, Matches, Missing, Rewrite, MatchCount, Created;
    var created := Created(t, Missing(rows, t, DesiredNames(t)), ids);
    var kept := Rewrite(rows, t, Updates(rows, t), Deletes(rows, t));
    MatchCountConcat(kept, created, t);
    CreatedMatch(rows, t, ids);
    MatchCountAll(created, t);
    MatchCountRewrite(rows, t, Updates(rows, t), Deletes(rows, t));
    DeletesCount(rows, t);
    MissingCount(rows, t);
    DesiredDistinct(t);
    DistinctCount(DesiredNames(t));
    Exchange(MatchedNames(rows, t), ToSet(DesiredNames(t)));
  }

  lemma Exchange<T>(a: set<T>, b: set<T>)
    ensures |a| - |a - b| == |b| - |b - a|
  {
    assert a == (a * b) + (a - b) && b == (a * b) + (b - a);
  }

  lemma NamesLast(rows: seq<Row>, t: Target)
    requires rows != []
    ensures var n := |rows| - 1;
      MatchedNames(rows, t) == MatchedNames(rows[..n], t) + if Matches(rows[n], t) then {rows[n].name} else {}
  {
    hide Matches;
    var n := |rows| - 1;
    assert forall i :: 0 <= i < n ==> rows[..n][i] == rows[i];
    forall name | name in MatchedNames(rows, t) && !(Matches(rows[n], t) && rows[n].name == name)
      ensures name in MatchedNames(rows[..n], t)
    {
      var i :| 0 <= i < |rows| && Matches(rows[i], t) && rows[i].name == name;
      assert rows[..n][i] == rows[i];
    }
  }

  lemma NamesDistinctLast(rows: seq<Row>, t: Target)
    requires rows != []
    ensures var n := |rows| - 1;
      NamesDistinct(rows, t)
      <==> NamesDistinct(rows[..n], t) && (Matches(rows[n], t) ==> rows[n].name !in MatchedNames(rows[..n], t))
  {
    hide Matches;
    var n := |rows| - 1;
    assert forall i :: 0 <= i < n ==> rows[..n][i] == rows[i];
    if Matches(rows[n], t) && rows[n].name in MatchedNames(rows[..n], t) {
      var i :| 0 <= i < n && Matches(rows[..n][i], t) && rows[..n][i].name == rows[n].name;
      assert !NamesDistinct(rows, t);
    } else if NamesDistinct(rows[..n], t) {
      assert forall i :: 0 <= i < n && Matches(rows[i], t) ==> rows[..n][i].name in MatchedNames(rows[..n], t);
    }
  }

  lemma {:induction false} NamesDistinctCount(rows: seq<Row>, t: Target)
    ensures |MatchedNames(rows, t)| <= MatchCount(rows, t)
    ensures |MatchedNames(rows, t)| == MatchCount(rows, t) <==> NamesDistinct(rows, t)
  {
    if rows == [] {
      assert MatchedNames(rows, t) == {};
    } else {
      hide Matches, MatchedNames, NamesDistinct, MatchCount;
      NamesDistinctCount(rows[..|rows| - 1], t);
      NamesLast(rows, t);
      NamesDistinctLast(rows, t);
      MatchCountLast(rows, t);
    }
  }

  /** After one apply exactly replicas agents match, if and only if the matching agents had different names before it. */
  lemma ExactReplicas(rows: seq<Row>, t: Target, ids: seq<Id>)
    requires t.replicas <= |ids| && UniqueIds(rows)
    ensures MatchCount(Applied(rows, t, ids), t) == t.replicas <==> NamesDistinct(rows, t)
  {
    hide Applied, MatchCount, MatchedNames, NamesDistinct;
    CountAfterApply(rows, t, ids);
    NamesDistinctCount(rows, t);
  }

  /** Of two agents with the same unwanted name, the later one is deleted and the earlier one stays. */
  lemma DuplicateStays(a: Row, b: Row, t: Target, ids: seq<Id>)
    requires a.id != b.id && Matches(a, t) && Matches(b, t) && a.name == b.name && a.name !in DesiredNames(t) && t.replicas <= |ids|
    ensures var after := Applied([a, b], t, ids);
      a in after && Deletes([a, b], t) == {b.id} && !Settled(after, t) && MatchCount(after, t) == t.replicas + 1
  {
    hide Rewrite, Created, Missing, DesiredNames, MatchCount, Settled;
    var rows := [a, b];
    assert rows[..1] == [a] && LastAt(rows, t, a.name) == 1;
    assert Chosen(rows, t, 1) && !Chosen(rows, t, 0);
    assert forall i :: 0 <= i < |rows| && Chosen(rows, t, i) ==> i == 1;
    RewriteMembers(rows, t, Updates(rows, t), Deletes(rows, t));
    assert Fate(rows[0], t, Updates(rows, t), Deletes(rows, t)) == [a];
    ApplySettles(rows, t, ids);
    CountAfterApply(rows, t, ids);
    MatchCountTwo(a, b, t);
    assert MatchedNames(rows, t) == {a.name} by { assert Matches(rows[0], t) && Matches(rows[1], t); }
  }

  lemma MatchCountTwo(a: Row, b: Row, t: Target)
    requires Matches(a, t) && Matches(b, t)
    ensures MatchCount([a, b], t) == 2
  {
    assert [a, b][..1] == [a] && [a][..0] == [];
    assert MatchCount([a], t) == 1;
  }

  /** For example two agents web-x of a cluster web with one replica: one of them is still there next to web-1. */
  lemma DuplicateExample()
    ensures var t := Target("p", "web", "", 1, "worker", "m", None, map[]);
      var a := Row(1, "p", "worker", "web-x", "m", None, None);
      var after := Applied([a, a.(id := 2)], t, [3]);
      a in after && !Settled(after, t) && MatchCount(after, t) == 2
  {
    hide Applied, Settled, MatchCount, Deletes;
    var t := Target("p", "web", "", 1, "worker", "m", None, map[]);
    var a := Row(1, "p", "worker", "web-x", "m", None, None);
    assert ReplicaName(t, 0)[4..] == Decimal(1);
    assert "web-x"[4..] == "x";
    assert DesiredNames(t) == [ReplicaName(t, 0)];
    DuplicateStays(a, a.(id := 2), t, [3]);
  }
}
