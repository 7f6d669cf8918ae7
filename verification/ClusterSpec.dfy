/** Comparing a manifest with the live agents, and applying it to them. */
module ClusterSpec {
  import opened Prelude
  import opened ClusterState
  import opened ClusterConvergence
  import opened ClusterCount
  import ClusterRows

  /** The agents an action names, in an item list. */
  function AgentIds(items: seq<DiffItem>, action: Action): set<Id> {
    set item | item in items && item.action == action && item.agentId.Some? :: item.agentId.value
  }

  function CreateNames(items: seq<DiffItem>): seq<string> {
    if items == [] then [] else
      var n := |items| - 1;
      CreateNames(items[..n]) + if items[n].action == Create then [items[n].name] else []
  }

  lemma AgentIdsLast(items: seq<DiffItem>, action: Action)
    requires items != []
    ensures var item := items[|items| - 1];
      AgentIds(items, action) == AgentIds(items[..|items| - 1], action)
                                 + if item.action == action && item.agentId.Some? then {item.agentId.value} else {}
  {
    assert items == items[..|items| - 1] + [items[|items| - 1]];
  }

  lemma {:induction false} CreateNamesConcat(a: seq<DiffItem>, b: seq<DiffItem>)
    ensures CreateNames(a + b) == CreateNames(a) + CreateNames(b)
  {
    if b == [] {
      assert a + b == a;
    } else {
      assert (a + b)[..|a + b| - 1] == a + b[..|b| - 1];
      CreateNamesConcat(a, b[..|b| - 1]);
    }
  }

  lemma {:induction false} CreateNamesDesired(rows: seq<Row>, t: Target, names: seq<string>)
    ensures CreateNames(DesiredItems(rows, t, names)) == Missing(rows, t, names)
  {
    hide LastAt;
    if names != [] {
      var n := |names| - 1;
      CreateNamesDesired(rows, t, names[..n]);
      CreateNamesConcat(DesiredItems(rows, t, names[..n]), [DesiredItem(rows, t, names[n])]);
    }
  }

  lemma {:induction false} CreateNamesNone(items: seq<DiffItem>)
    requires forall item :: item in items ==> item.action != Create
    ensures CreateNames(items) == []
  {
    if items != [] {
      assert forall item :: item in items[..|items| - 1] ==> item in items;
      CreateNamesNone(items[..|items| - 1]);
    }
  }

  /** The diff creates exactly the missing names, in the order of the manifest. */
  lemma DiffCreates(rows: seq<Row>, t: Target)
    ensures CreateNames(Diff(rows, t)) == Missing(rows, t, DesiredNames(t))
  {
    hide LastAt, FirstNames, SurplusItems, DesiredItems, CreateNames, DesiredNames, Missing;
    CreateNamesConcat(DesiredItems(rows, t, DesiredNames(t)), SurplusItems(rows, t, FirstNames(rows, t)));
    CreateNamesDesired(rows, t, DesiredNames(t));
    SurplusItemsNone(rows, t, FirstNames(rows, t));
    CreateNamesNone(SurplusItems(rows, t, FirstNames(rows, t)));
  }

  /** The diff updates and deletes exactly the agents that one apply is to update and delete. */
  lemma DiffNames(rows: seq<Row>, t: Target)
    ensures AgentIds(Diff(rows, t), Update) == Updates(rows, t)
    ensures AgentIds(Diff(rows, t), Delete) == Deletes(rows, t)
  {
    DiffUpdates(rows, t);
    DiffDeletes(rows, t);
  }

  lemma DiffUpdates(rows: seq<Row>, t: Target)
    ensures AgentIds(Diff(rows, t), Update) == Updates(rows, t)
  {
    hide LastAt, FirstNames, SurplusItems, DesiredItems, DesiredNames, Matches;
    var wanted := DesiredItems(rows, t, DesiredNames(t));
    DesiredItemsAt(rows, t, DesiredNames(t));
    SurplusItemsNone(rows, t, FirstNames(rows, t));
    forall id | id in AgentIds(Diff(rows, t), Update) ensures id in Updates(rows, t) {
      var item :| item in Diff(rows, t) && item.action == Update && item.agentId == Some(id);
      assert item in wanted;
      var k :| 0 <= k < |wanted| && item == wanted[k];
      ChosenRole(rows, t, DesiredNames(t)[k]);
      assert DesiredNames(t)[k] in DesiredNames(t);
    }
    forall id | id in Updates(rows, t) ensures id in AgentIds(Diff(rows, t), Update) {
      var i :| 0 <= i < |rows| && Chosen(rows, t, i) && rows[i].name in DesiredNames(t) && rows[i].model != t.model && rows[i].id == id;
      var k :| 0 <= k < |DesiredNames(t)| && DesiredNames(t)[k] == rows[i].name;
      assert Diff(rows, t)[k] == wanted[k];
      assert wanted[k] in Diff(rows, t);
    }
  }

  lemma ChosenRole(rows: seq<Row>, t: Target, name: string)
    ensures var i := LastAt(rows, t, name); i >= 0 ==> rows[i].role == t.role && Chosen(rows, t, i)
  {
    hide LastAt, PrefixOf;
  }

  lemma DiffDeletes(rows: seq<Row>, t: Target)
    ensures AgentIds(Diff(rows, t), Delete) == Deletes(rows, t)
  {
    hide LastAt, FirstNames, SurplusItems, DesiredItems, DesiredNames, Matches;
    var wanted, surplus := DesiredItems(rows, t, DesiredNames(t)), SurplusItems(rows, t, FirstNames(rows, t));
    DesiredItemsAt(rows, t, DesiredNames(t));
    ClusterRows.SurplusItemsAre(rows, t, FirstNames(rows, t));
    forall id | id in AgentIds(Diff(rows, t), Delete) ensures id in Deletes(rows, t) {
      var item :| item in Diff(rows, t) && item.action == Delete && item.agentId == Some(id);
      assert item in surplus;
      assert Chosen(rows, t, LastAt(rows, t, item.name));
    }
    forall id | id in Deletes(rows, t) ensures id in AgentIds(Diff(rows, t), Delete) {
      var i :| 0 <= i < |rows| && Chosen(rows, t, i) && rows[i].name !in DesiredNames(t) && rows[i].id == id;
      assert DiffItem(Delete, Some(id), rows[i].name) in surplus;
    }
  }

  // ----- Editing the rows one at a time -----

  lemma RewriteConcatStep(whole: seq<Row>, front: seq<Row>, b: seq<Row>, t: Target, updates: set<Id>, deletes: set<Id>)
    requires whole != [] && b != [] && whole[|whole| - 1] == b[|b| - 1]
    requires Rewrite(whole[..|whole| - 1], t, updates, deletes) == front + Rewrite(b[..|b| - 1], t, updates, deletes)
    ensures Rewrite(whole, t, updates, deletes) == front + Rewrite(b, t, updates, deletes)
  {
    hide *;
    RewriteLast(whole, t, updates, deletes);
    RewriteLast(b, t, updates, deletes);
    Associative(front, Rewrite(b[..|b| - 1], t, updates, deletes), Fate(b[|b| - 1], t, updates, deletes));
  }

  lemma LastOfConcat<T>(a: seq<T>, b: seq<T>)
    requires b != []
    ensures (a + b)[..|a + b| - 1] == a + b[..|b| - 1] && (a + b)[|a + b| - 1] == b[|b| - 1]
  {
  }

  lemma Associative<T>(a: seq<T>, b: seq<T>, c: seq<T>)
    ensures (a + b) + c == a + (b + c)
  {
  }

  lemma {:induction false} RewriteConcat(a: seq<Row>, b: seq<Row>, t: Target, updates: set<Id>, deletes: set<Id>)
    ensures Rewrite(a + b, t, updates, deletes) == Rewrite(a, t, updates, deletes) + Rewrite(b, t, updates, deletes)
  {
    hide Fate;
    if b == [] {
      assert a + b == a;
    } else {
      RewriteConcat(a, b[..|b| - 1], t, updates, deletes);
      LastOfConcat(a, b);
      RewriteConcatStep(a + b, Rewrite(a, t, updates, deletes), b, t, updates, deletes);
    }
  }

  lemma FateTwice(r: Row, t: Target, u1: set<Id>, d1: set<Id>, u2: set<Id>, d2: set<Id>)
    ensures Rewrite(Fate(r, t, u1, d1), t, u2, d2) == Fate(r, t, u1 + u2, d1 + d2)
  {
    var once := Updated(r, t);
    assert Updated(once, t).memory.value == once.memory.value;
  }

  lemma {:induction false} RewriteTwice(rows: seq<Row>, t: Target, u1: set<Id>, d1: set<Id>, u2: set<Id>, d2: set<Id>)
    ensures Rewrite(Rewrite(rows, t, u1, d1), t, u2, d2) == Rewrite(rows, t, u1 + u2, d1 + d2)
  {
    if rows != [] {
      var n := |rows| - 1;
      RewriteTwice(rows[..n], t, u1, d1, u2, d2);
      RewriteConcat(Rewrite(rows[..n], t, u1, d1), Fate(rows[n], t, u1, d1), t, u2, d2);
      FateTwice(rows[n], t, u1, d1, u2, d2);
    }
  }

  /** Editing stored agents by id leaves rows created in the meantime alone. */
  lemma RewriteStored(stored: seq<Row>, created: seq<Row>, t: Target, u1: set<Id>, d1: set<Id>, u2: set<Id>, d2: set<Id>)
    requires forall i :: 0 <= i < |created| ==> created[i].id !in u2 && created[i].id !in d2
    ensures Rewrite(Rewrite(stored, t, u1, d1) + created, t, u2, d2) == Rewrite(stored, t, u1 + u2, d1 + d2) + created
  {
    hide *;
    RewriteConcat(Rewrite(stored, t, u1, d1), created, t, u2, d2);
    RewriteTwice(stored, t, u1, d1, u2, d2);
    RewriteNothing(created, t, u2, d2);
  }

  ghost predicate FreshIds(rows: seq<Row>, ids: seq<Id>) {
    Distinct(ids) && forall i, k :: 0 <= i < |rows| && 0 <= k < |ids| ==> rows[i].id != ids[k]
  }

  /** The rows when the items in done have been carried out. */
  function Progress(stored: seq<Row>, t: Target, done: seq<DiffItem>, ids: seq<Id>): seq<Row>
    requires |CreateNames(done)| <= |ids|
  {
    Rewrite(stored, t, AgentIds(done, Update), AgentIds(done, Delete)) + Created(t, CreateNames(done), ids)
  }

  lemma ProgressCreate(stored: seq<Row>, t: Target, done: seq<DiffItem>, item: DiffItem, ids: seq<Id>)
    requires |CreateNames(done + [item])| <= |ids| && item.action == Create
    ensures |CreateNames(done + [item])| == |CreateNames(done)| + 1
    ensures Progress(stored, t, done + [item], ids)
         == Progress(stored, t, done, ids) + [NewRow(t, ids[|CreateNames(done)|], item.name)]
  {
    hide Rewrite, AgentIds, NewRow;
    assert (done + [item])[..|done|] == done;
    AgentIdsLast(done + [item], Update);
    AgentIdsLast(done + [item], Delete);
    assert AgentIds(done + [item], Update) == AgentIds(done, Update) && AgentIds(done + [item], Delete) == AgentIds(done, Delete);
    var names := CreateNames(done);
    assert CreateNames(done + [item]) == names + [item.name];
    var kept, added := Rewrite(stored, t, AgentIds(done, Update), AgentIds(done, Delete)), NewRow(t, ids[|names|], item.name);
    assert Created(t, names + [item.name], ids) == Created(t, names, ids) + [added];
    assert kept + (Created(t, names, ids) + [added]) == (kept + Created(t, names, ids)) + [added];
  }

  lemma ProgressEdit(stored: seq<Row>, t: Target, done: seq<DiffItem>, item: DiffItem, ids: seq<Id>)
    requires item.action != Create && |CreateNames(done)| <= |ids|
    requires item.agentId.Some? ==> item.agentId.value !in ids
    ensures CreateNames(done + [item]) == CreateNames(done)
    ensures var here := if item.agentId.Some? then {item.agentId.value} else {};
      Progress(stored, t, done + [item], ids)
      == Rewrite(Progress(stored, t, done, ids), t, if item.action == Update then here else {},
                 if item.action == Delete then here else {})
  {
    hide Rewrite, AgentIds, Created;
    assert (done + [item])[..|done|] == done;
    assert CreateNames(done + [item]) == CreateNames(done);
    AgentIdsLast(done + [item], Update);
    AgentIdsLast(done + [item], Delete);
    var here := if item.agentId.Some? then {item.agentId.value} else {};
    RewriteStored(stored, Created(t, CreateNames(done), ids), t, AgentIds(done, Update), AgentIds(done, Delete),
                  if item.action == Update then here else {}, if item.action == Delete then here else {});
  }

  lemma DiffAgentsStored(rows: seq<Row>, t: Target, item: DiffItem)
    requires item in Diff(rows, t) && item.agentId.Some?
    ensures exists i :: 0 <= i < |rows| && rows[i].id == item.agentId.value
  {
    hide LastAt, DesiredNames, DesiredItems, SurplusItems, FirstNames;
    DesiredItemsAt(rows, t, DesiredNames(t));
    ClusterRows.SurplusItemsAre(rows, t, FirstNames(rows, t));
    assert rows[LastAt(rows, t, item.name)].id == item.agentId.value;
  }

  lemma NextIndexed(rows: seq<Row>, t: Target, i: nat)
    requires i < |rows|
    ensures FirstNames(rows[..i + 1], t) == FirstNames(rows[..i], t)
              + if Matches(rows[i], t) && LastAt(rows[..i], t, rows[i].name) < 0 then [rows[i].name] else []
    ensures forall name :: LastAt(rows[..i + 1], t, name)
                           == if Matches(rows[i], t) && rows[i].name == name then i else LastAt(rows[..i], t, name)
  {
    hide Matches;
    assert rows[..i + 1][..i] == rows[..i];
  }

  /** The two dicts the source keeps: the last agent per name, and the names in insertion order. */
  method IndexByName(rows: seq<Row>, t: Target) returns (byName: map<string, int>, order: seq<string>)
    ensures order == FirstNames(rows, t)
    ensures byName.Keys == ToSet(order)
    ensures forall name :: name in byName ==> byName[name] == LastAt(rows, t, name)
  {
    byName, order := map[], [];
    for i := 0 to |rows|
      invariant order == FirstNames(rows[..i], t)
      invariant forall name :: name in byName <==> LastAt(rows[..i], t, name) >= 0
      invariant forall name :: name in byName ==> byName[name] == LastAt(rows[..i], t, name)
    {
      hide *;
      NextIndexed(rows, t, i);
      if Matches(rows[i], t) {
        if rows[i].name !in byName { order := order + [rows[i].name]; }
        byName := byName[rows[i].name := i];
      }
    }
    assert rows[..|rows|] == rows;
  }

  method DesiredDiff(rows: seq<Row>, t: Target, byName: map<string, int>, wanted: seq<string>) returns (items: seq<DiffItem>)
    requires forall name :: name in byName <==> LastAt(rows, t, name) >= 0
    requires forall name :: name in byName ==> byName[name] == LastAt(rows, t, name)
    ensures items == DesiredItems(rows, t, wanted)
  {
    items := [];
    for k := 0 to |wanted|
      invariant items == DesiredItems(rows, t, wanted[..k])
    {
      hide LastAt;
      assert wanted[..k + 1][..k] == wanted[..k];
      var name := wanted[k];
      if name !in byName {
        items := items + [DiffItem(Create, None, name)];
      } else {
        var agent := rows[byName[name]];
        if agent.model != t.model || agent.role != t.role {
          items := items + [DiffItem(Update, Some(agent.id), name)];
        } else {
          items := items + [DiffItem(Noop, Some(agent.id), name)];
        }
      }
    }
    assert wanted[..|wanted|] == wanted;
  }

  method SurplusDiff(rows: seq<Row>, t: Target, byName: map<string, int>, order: seq<string>, wanted: seq<string>)
    returns (items: seq<DiffItem>)
    requires wanted == DesiredNames(t) && forall name :: name in order ==> LastAt(rows, t, name) >= 0
    requires forall name :: name in order ==> name in byName && byName[name] == LastAt(rows, t, name)
    ensures items == SurplusItems(rows, t, order)
  {
    items := [];
    for k := 0 to |order|
      invariant forall name :: name in order[..k] ==> LastAt(rows, t, name) >= 0
      invariant items == SurplusItems(rows, t, order[..k])
    {
      hide LastAt, DesiredNames;
      assert order[..k + 1] == order[..k] + [order[k]] && order[..k + 1][..k] == order[..k];
      var name := order[k];
      if name !in wanted {
        items := items + [DiffItem(Delete, Some(rows[byName[name]].id), name)];
      }
    }
    assert order[..|order|] == order;
  }

  lemma ProgressNone(stored: seq<Row>, t: Target, ids: seq<Id>)
    ensures CreateNames([]) == [] && AgentIds([], Delete) == {}
    ensures Progress(stored, t, [], ids) == stored
  {
    assert AgentIds([], Update) == {} && AgentIds([], Delete) == {};
    RewriteNothing(stored, t, {}, {});
  }

  lemma RewriteNone(rows: seq<Row>, t: Target)
    ensures Rewrite(rows, t, {}, {}) == rows
  {
    RewriteNothing(rows, t, {}, {});
  }

  /** The ids of new agents are not among those the diff edits. */
  lemma NewIdsKept(stored: seq<Row>, t: Target, done: seq<DiffItem>, rest: seq<DiffItem>, ids: seq<Id>)
    requires FreshIds(stored, ids) && done + rest == Diff(stored, t) && done != []
    ensures forall k :: 0 <= k < |ids| ==> ids[k] !in AgentIds(done, Delete)
    ensures var item := done[|done| - 1]; item.action != Create && item.agentId.Some? ==> item.agentId.value !in ids
  {
    hide Diff;
    forall item | item in done && item.agentId.Some? ensures item.agentId.value !in ids {
      assert item in Diff(stored, t);
      DiffAgentsStored(stored, t, item);
    }
  }

  /** The agents table, and the workers that run its agents. */
  class Cluster {
    var rows: seq<Row>
    var workers: set<Id>

    constructor (rows: seq<Row>, workers: set<Id>)
      ensures this.rows == rows && this.workers == workers
    {
      this.rows, this.workers := rows, workers;
    }

    method ComputeDiff(t: Target) returns (items: seq<DiffItem>)
      ensures items == Diff(rows, t) && ClusterRows.DiffSays(rows, t, items)
    {
      ClusterRows.DiffIs(rows, t);
      hide ClusterRows.DiffSays, LastAt, FirstNames, DesiredNames, DesiredItems, SurplusItems, Matches;
      var byName, order := IndexByName(rows, t);
      var wanted := DesiredNames(t);
      var head := DesiredDiff(rows, t, byName, wanted);
      var tail := SurplusDiff(rows, t, byName, order, wanted);
      items := head + tail;
    }

    /** ids are the primary keys the database hands out to new agents, in order. */
    method Apply(t: Target, ids: seq<Id>) returns (items: seq<DiffItem>)
      requires UniqueIds(rows) && FreshIds(rows, ids) && t.replicas <= |ids|
      modifies this
      ensures items == Diff(old(rows), t)
      ensures rows == Applied(old(rows), t, ids)
      ensures ClusterRows.DiffSays(old(rows), t, items) && ClusterRows.RowsSay(old(rows), t, ids, rows)
      ensures workers == old(workers) + ToSet(ids[..|Missing(old(rows), t, DesiredNames(t))|]) - Deletes(old(rows), t)
    {
      hide ClusterRows.RowsSay, ClusterRows.DiffSays, Applied;
      ClusterRows.AppliedRows(rows, t, ids);
      items := ComputeDiff(t);
      CarryOut(t, ids, items);
    }

    /** One item at a time, in the order of the diff. */
    method CarryOut(t: Target, ids: seq<Id>, items: seq<DiffItem>)
      requires UniqueIds(rows) && FreshIds(rows, ids) && t.replicas <= |ids| && items == Diff(rows, t)
      modifies this
      ensures rows == Applied(old(rows), t, ids)
      ensures workers == old(workers) + ToSet(ids[..|Missing(old(rows), t, DesiredNames(t))|]) - Deletes(old(rows), t)
    {
      var spawned := 0;
      ghost var stored := rows;
      hide Rewrite, Created, Missing, Diff, DesiredNames, Updates, Deletes, AgentIds, CreateNames, NewRow;
      DiffNames(rows, t);
      DiffCreates(rows, t);
      assert items[..0] == [];
      ProgressNone(stored, t, ids);
      for i := 0 to |items|
        invariant spawned == |CreateNames(items[..i])| <= |ids|
        invariant rows == Progress(stored, t, items[..i], ids)
        invariant workers == old(workers) + ToSet(ids[..spawned]) - AgentIds(items[..i], Delete)
      {
        hide Progress, FreshIds, UniqueIds;
        var item := items[i];
        assert items[..i + 1] == items[..i] + [item] && items == items[..i + 1] + items[i + 1..];
        AgentIdsLast(items[..i + 1], Delete);
        CreateNamesConcat(items[..i + 1], items[i + 1..]);
        NewIdsKept(stored, t, items[..i + 1], items[i + 1..], ids);
        if item.action == Create {
          ProgressCreate(stored, t, items[..i], item, ids);
          rows := rows + [NewRow(t, ids[spawned], item.name)];
          assert ids[..spawned + 1] == ids[..spawned] + [ids[spawned]];
          workers := workers + {ids[spawned]};
          spawned := spawned + 1;
        } else {
          ProgressEdit(stored, t, items[..i], item, ids);
          RewriteNone(rows, t);
          if item.action == Update && item.agentId.Some? {
            rows := Rewrite(rows, t, {item.agentId.value}, {});
          } else if item.action == Delete && item.agentId.Some? {
            workers := workers - {item.agentId.value};
            rows := Rewrite(rows, t, {}, {item.agentId.value});
          }
        }
      }
      assert items[..|items|] == items;
    }
  }
}
