/** Which agent row an apply keeps, edits, removes or creates, and with which fields. */
module ClusterRows {
  import opened Prelude
  import opened Text
  import opened ClusterState
  import opened ClusterConvergence

  /** Row i is the one its name stands for: it matches, and no later row with its name does. */
  ghost predicate Latest(rows: seq<Row>, t: Target, i: nat)
    requires i < |rows|
  {
    Matches(rows[i], t) && forall j :: i < j < |rows| && Matches(rows[j], t) ==> rows[j].name != rows[i].name
  }

  /** Row i is deleted: it stands for a name the manifest does not want. */
  ghost predicate Goes(rows: seq<Row>, t: Target, i: nat)
    requires i < |rows|
  {
    Latest(rows, t, i) && rows[i].name !in DesiredNames(t)
  }

  /** Row i is edited: it stands for a wanted name and has another model. */
  ghost predicate Changes(rows: seq<Row>, t: Target, i: nat)
    requires i < |rows|
  {
    Latest(rows, t, i) && rows[i].name in DesiredNames(t) && rows[i].model != t.model
  }

  /** m is the memory before with the cluster's name and labels in it, and every other entry as it was. */
  ghost predicate Relabelled(before: Option<map<string, MemoryValue>>, m: Option<map<string, MemoryValue>>, t: Target) {
    var was := if before.Some? then before.value else map[];
    m.Some? && m.value.Keys == was.Keys + {"cluster_name", "cluster_labels"}
    && m.value["cluster_name"] == Name(t.clusterName) && m.value["cluster_labels"] == Labels(t.labels)
    && forall k :: k in was && k != "cluster_name" && k != "cluster_labels" ==> m.value[k] == was[k]
  }

  /** r is the row with the wanted model and the cluster's name and labels, and the same in every other field. */
  ghost predicate Edited(before: Row, r: Row, t: Target) {
    r.id == before.id && r.project == before.project && r.role == before.role && r.name == before.name && r.template == before.template
    && r.model == t.model && Relabelled(before.memory, r.memory, t)
  }

  /** r is a new agent of the cluster under the name and the id. */
  ghost predicate NewAgent(r: Row, t: Target, id: Id, name: string) {
    r.id == id && r.project == t.project && r.role == t.role && r.name == name && r.template == t.template
    && r.model == t.model && Relabelled(None, r.memory, t)
  }

  /** The first n rows that stay, by their index. */
  ghost function Staying(rows: seq<Row>, t: Target, n: nat): (r: seq<nat>)
    requires n <= |rows|
    ensures forall k :: 0 <= k < |r| ==> r[k] < n
  {
    if n == 0 then [] else Staying(rows, t, n - 1) + if Goes(rows, t, n - 1) then [] else [n - 1]
  }

  /** r is what an apply leaves of row i. */
  ghost predicate StaysAs(rows: seq<Row>, t: Target, i: nat, r: Row)
    requires i < |rows|
  {
    if Changes(rows, t, i) then Edited(rows[i], r, t) else r == rows[i]
  }

  /** after is the rows that stay, in order, and behind them a new agent for each missing name. */
  ghost predicate RowsSay(rows: seq<Row>, t: Target, ids: seq<Id>, after: seq<Row>)
    requires t.replicas <= |ids|
  {
    var stay, missing := Staying(rows, t, |rows|), Missing(rows, t, DesiredNames(t));
    |after| == |stay| + |missing|
    && (forall k :: 0 <= k < |stay| ==> StaysAs(rows, t, stay[k], after[k]))
    && forall k :: 0 <= k < |missing| ==> NewAgent(after[|stay| + k], t, ids[k], missing[k])
  }

  lemma LatestIsChosen(rows: seq<Row>, t: Target, i: nat)
    requires i < |rows|
    ensures Latest(rows, t, i) <==> Chosen(rows, t, i)
  {
    hide Matches;
    if Matches(rows[i], t) {
      var last := LastAt(rows, t, rows[i].name);
      assert last >= i;
    }
  }

  /** With distinct ids, the ids to delete and to edit are those of the rows that go and change. */
  lemma IdsTell(rows: seq<Row>, t: Target, i: nat)
    requires i < |rows| && UniqueIds(rows)
    ensures rows[i].id in Deletes(rows, t) <==> Goes(rows, t, i)
    ensures rows[i].id in Updates(rows, t) <==> Changes(rows, t, i)
  {
    hide LastAt, DesiredNames, Latest, Matches;
    LatestIsChosen(rows, t, i);
    forall j | 0 <= j < |rows| && rows[j].id == rows[i].id ensures j == i {}
  }

  lemma EditedIs(r: Row, t: Target)
    ensures Edited(r, Updated(r, t), t)
  {
  }

  lemma {:induction false} RewriteStays(rows: seq<Row>, t: Target, n: nat)
    requires n <= |rows| && UniqueIds(rows)
    ensures var after := Rewrite(rows[..n], t, Updates(rows, t), Deletes(rows, t));
            |after| == |Staying(rows, t, n)| && forall k :: 0 <= k < |after| ==> StaysAs(rows, t, Staying(rows, t, n)[k], after[k])
  {
    hide Goes, Changes, Edited, Updated, Updates, Deletes;
    if n > 0 {
      assert rows[..n][..n - 1] == rows[..n - 1];
      RewriteStays(rows, t, n - 1);
      IdsTell(rows, t, n - 1);
      EditedIs(rows[n - 1], t);
    }
  }

  lemma NewIs(t: Target, id: Id, name: string)
    ensures NewAgent(NewRow(t, id, name), t, id, name)
  {
  }

  /** An apply removes, edits, keeps and creates exactly the rows it should, each with the fields it should have. */
  lemma AppliedRows(rows: seq<Row>, t: Target, ids: seq<Id>)
    requires t.replicas <= |ids| && UniqueIds(rows)
    ensures RowsSay(rows, t, ids, Applied(rows, t, ids))
  {
    hide StaysAs, NewAgent, NewRow, Rewrite, Missing, Updates, Deletes, UniqueIds, DesiredNames;
    assert rows[..|rows|] == rows;
    RewriteStays(rows, t, |rows|);
    var missing := Missing(rows, t, DesiredNames(t));
    forall k | 0 <= k < |missing| ensures NewAgent(Created(t, missing, ids)[k], t, ids[k], missing[k]) {
      NewIs(t, ids[k], missing[k]);
    }
  }

  // ----- The diff -----

  /** item is what the diff says of a wanted name: to be created, to be edited when the model differs, or nothing to do. */
  ghost predicate WantedSays(rows: seq<Row>, t: Target, name: string, item: DiffItem) {
    ((forall i :: 0 <= i < |rows| && Matches(rows[i], t) ==> rows[i].name != name) ==> item == DiffItem(Create, None, name))
    && forall i :: 0 <= i < |rows| && Latest(rows, t, i) && rows[i].name == name ==>
         item == DiffItem(if rows[i].model == t.model then Noop else Update, Some(rows[i].id), name)
  }

  /** items says what is to be done for each wanted name, in their order, and behind that which rows are to be deleted, each once. */
  ghost predicate DiffSays(rows: seq<Row>, t: Target, items: seq<DiffItem>) {
    t.replicas <= |items|
    && (forall k :: 0 <= k < t.replicas ==> WantedSays(rows, t, PrefixOf(t) + "-" + Decimal(k + 1), items[k]))
    && DeletionsSay(rows, t, items[t.replicas..])
  }

  ghost predicate DeletesRow(rows: seq<Row>, t: Target, item: DiffItem) {
    exists i :: 0 <= i < |rows| && Goes(rows, t, i) && item == DiffItem(Delete, Some(rows[i].id), rows[i].name)
  }

  lemma DesiredSays(rows: seq<Row>, t: Target, name: string)
    ensures WantedSays(rows, t, name, DesiredItem(rows, t, name))
  {
    var last := LastAt(rows, t, name);
    forall i | 0 <= i < |rows| && Latest(rows, t, i) && rows[i].name == name ensures i == last {
      LatestIsChosen(rows, t, i);
    }
  }

  lemma {:induction false} FirstNamesOnce(rows: seq<Row>, t: Target)
    ensures forall j, k :: 0 <= j < k < |FirstNames(rows, t)| ==> FirstNames(rows, t)[j] != FirstNames(rows, t)[k]
  {
    hide Matches;
    if rows != [] {
      var n := |rows| - 1;
      var front := FirstNames(rows[..n], t);
      FirstNamesOnce(rows[..n], t);
      assert forall j :: 0 <= j < |front| ==> front[j] in front;
    }
  }

  lemma {:induction false} SurplusItemsAre(rows: seq<Row>, t: Target, names: seq<string>)
    requires forall name :: name in names ==> LastAt(rows, t, name) >= 0
    ensures forall item :: (item in SurplusItems(rows, t, names) <==>
      (item.name in names && item.name !in DesiredNames(t)
       && item == DiffItem(Delete, Some(rows[LastAt(rows, t, item.name)].id), item.name)))
  {
    hide LastAt, DesiredNames;
    if names != [] {
      var n := |names| - 1;
      assert names == names[..n] + [names[n]];
      assert forall name :: name in names[..n] ==> name in names;
      SurplusItemsAre(rows, t, names[..n]);
    }
  }

  lemma {:induction false} SurplusOnce(rows: seq<Row>, t: Target, names: seq<string>)
    requires forall name :: name in names ==> LastAt(rows, t, name) >= 0
    requires forall j, k :: 0 <= j < k < |names| ==> names[j] != names[k]
    ensures NamedOnce(SurplusItems(rows, t, names))
  {
    hide LastAt, DesiredNames, NamedOnce;
    if names == [] {
      assert NamedOnce([]) by { NoneNamed(); }
    } else {
      var n := |names| - 1;
      assert forall x :: x in names <==> x in names[..n] || x == names[n];
      SurplusOnce(rows, t, names[..n]);
      SurplusItemsAre(rows, t, names[..n]);
      var front := SurplusItems(rows, t, names[..n]);
      assert names[n] !in names[..n];
      forall k | 0 <= k < |front| ensures front[k].name != names[n] {
        assert front[k] in front;
      }
      OneMoreNamed(front, DiffItem(Delete, Some(rows[LastAt(rows, t, names[n])].id), names[n]));
      assert front + [] == front;
    }
  }

  lemma NoneNamed()
    ensures NamedOnce([])
  {
  }

  lemma OneMoreNamed(front: seq<DiffItem>, last: DiffItem)
    requires NamedOnce(front) && forall k :: 0 <= k < |front| ==> front[k].name != last.name
    ensures NamedOnce(front + [last])
  {
  }

  /** The row a name stands for, and that it goes if the name is not wanted. */
  lemma StandsFor(rows: seq<Row>, t: Target, name: string)
    requires LastAt(rows, t, name) >= 0
    ensures var i := LastAt(rows, t, name);
            Latest(rows, t, i) && rows[i].name == name && (forall j :: 0 <= j < |rows| && Latest(rows, t, j) && rows[j].name == name ==> j == i)
            && (name !in DesiredNames(t) ==> DeletesRow(rows, t, DiffItem(Delete, Some(rows[i].id), name)))
  {
    hide DesiredNames, Matches;
    var i := LastAt(rows, t, name);
    assert Latest(rows, t, i);
    assert name !in DesiredNames(t) ==> Goes(rows, t, i);
  }

  /** The deletions of a diff: each deletes a row that goes, every such row is among them, and no name comes twice. */
  ghost predicate DeletionsSay(rows: seq<Row>, t: Target, surplus: seq<DiffItem>) {
    (forall k :: 0 <= k < |surplus| ==> DeletesRow(rows, t, surplus[k]))
    && (forall i :: 0 <= i < |rows| && Goes(rows, t, i) ==> DiffItem(Delete, Some(rows[i].id), rows[i].name) in surplus)
    && NamedOnce(surplus)
  }

  ghost predicate NamedOnce(items: seq<DiffItem>) {
    forall j, k :: 0 <= j < k < |items| ==> items[j].name != items[k].name
  }

  lemma DeletionsAre(rows: seq<Row>, t: Target)
    ensures DeletionsSay(rows, t, SurplusItems(rows, t, FirstNames(rows, t)))
  {
    hide LastAt, FirstNames, SurplusItems, Latest, Matches, DesiredNames;
    var names := FirstNames(rows, t);
    var items := SurplusItems(rows, t, names);
    FirstNamesOnce(rows, t);
    SurplusOnce(rows, t, names);
    SurplusItemsAre(rows, t, names);
    forall k | 0 <= k < |items| ensures DeletesRow(rows, t, items[k]) {
      assert items[k] in items;
      StandsFor(rows, t, items[k].name);
    }
    forall i | 0 <= i < |rows| && Goes(rows, t, i) ensures DiffItem(Delete, Some(rows[i].id), rows[i].name) in items {
      LatestIsChosen(rows, t, i);
      assert rows[i].name in names;
    }
  }

  /** The diff names each wanted agent with what it needs, and each surplus one that a name stands for. */
  lemma DiffIs(rows: seq<Row>, t: Target)
    ensures DiffSays(rows, t, Diff(rows, t))
  {
    hide LastAt, FirstNames, SurplusItems, DesiredItems, WantedSays, DeletionsSay, PrefixOf, Decimal;
    var wanted, surplus := DesiredItems(rows, t, DesiredNames(t)), SurplusItems(rows, t, FirstNames(rows, t));
    DesiredItemsAt(rows, t, DesiredNames(t));
    forall k | 0 <= k < t.replicas ensures WantedSays(rows, t, PrefixOf(t) + "-" + Decimal(k + 1), wanted[k]) {
      DesiredSays(rows, t, DesiredNames(t)[k]);
    }
    DeletionsAre(rows, t);
    assert Diff(rows, t)[t.replicas..] == surplus;
  }
}
