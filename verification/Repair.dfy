/** PromptAssembly._repair_dangling_tool_use: placeholder results for tool calls that never got one. */
module Repair {
  import opened Messages

  function PlaceholderText(name: string): string {
    "[Session interrupted \U{2014} tool '" + name + "' was never executed. Ignore this result.]"
  }

  function Placeholder(tc: ToolCall): Message {
    Tool(PlaceholderText(tc.name), tc.id)
  }

  /** One placeholder, in order, for each of the calls whose id is in d. */
  ghost function Placeholders(calls: seq<ToolCall>, d: set<string>): seq<Message> {
    if calls == [] then [] else
      var last := calls[|calls| - 1];
      Placeholders(calls[..|calls| - 1], d) + if last.id in d then [Placeholder(last)] else []
  }

  /** ms with the placeholders of each assistant message inserted right behind it. */
  ghost function Patch(ms: seq<Message>, d: set<string>): seq<Message> {
    if ms == [] then [] else
      var last := ms[|ms| - 1];
      Patch(ms[..|ms| - 1], d) + [last] + Placeholders(CallsOf(last), d)
  }

  ghost function Repaired(ms: seq<Message>): seq<Message> {
    Patch(ms, Dangling(ms))
  }

  lemma NoCalls()
    ensures CallIds([]) == {}
  {
  }

  /** First pass: the ids issued, with the index of the last message that issued each, and the ids resolved. */
  method CollectIds(messages: seq<Message>) returns (issued: map<string, nat>, resolved: set<string>)
    ensures issued.Keys == IssuedIds(messages)
    ensures resolved == ResolvedIds(messages)
  {
    issued, resolved := map[], {};
    for idx := 0 to |messages|
      invariant issued.Keys == IssuedIds(messages[..idx])
      invariant resolved == ResolvedIds(messages[..idx])
    {
      hide IssuedIds, ResolvedIds, CallIds;
      var m := messages[idx];
      assert messages[..idx + 1] == messages[..idx] + [m];
      IdsOfSnoc(messages[..idx], m);
      NoCalls();
      if m.Assistant? {
        ghost var before := issued.Keys;
        for k := 0 to |m.calls|
          invariant issued.Keys == before + CallIds(m.calls[..k])
        {
          assert m.calls[..k + 1] == m.calls[..k] + [m.calls[k]];
          CallIdsSnoc(m.calls[..k], m.calls[k]);
          if m.calls[k].id != "" {
            issued := issued[m.calls[k].id := idx];
          }
        }
        assert m.calls[..|m.calls|] == m.calls;
      } else if m.Tool? {
        if m.toolUseId != "" {
          resolved := resolved + {m.toolUseId};
        }
      }
    }
    assert messages[..|messages|] == messages;
  }

  /** Second pass: the list is rebuilt with the placeholders in place. */
  method InsertPlaceholders(messages: seq<Message>, dangling: set<string>) returns (patched: seq<Message>)
    ensures patched == Patch(messages, dangling)
  {
    patched := [];
    for idx := 0 to |messages|
      invariant patched == Patch(messages[..idx], dangling)
    {
      var m := messages[idx];
      assert messages[..idx + 1][..idx] == messages[..idx];
      patched := patched + [m];
      if m.Assistant? {
        ghost var before := patched;
        for k := 0 to |m.calls|
          invariant patched == before + Placeholders(m.calls[..k], dangling)
        {
          assert m.calls[..k + 1][..k] == m.calls[..k];
          if m.calls[k].id in dangling {
            patched := patched + [Placeholder(m.calls[k])];
          }
        }
        assert m.calls[..|m.calls|] == m.calls;
      }
    }
    assert messages[..|messages|] == messages;
  }

  method RepairDanglingToolUse(messages: seq<Message>) returns (patched: seq<Message>)
    ensures patched == Repaired(messages)
  {
    var issued, resolved := CollectIds(messages);
    var dangling := issued.Keys - resolved;
    if dangling == {} {
      PatchNothing(messages);
      return messages;
    }
    patched := InsertPlaceholders(messages, dangling);
  }

  lemma {:induction false} PlaceholdersOfNone(calls: seq<ToolCall>)
    ensures Placeholders(calls, {}) == []
  {
    if calls != [] { PlaceholdersOfNone(calls[..|calls| - 1]); }
  }

  lemma {:induction false} PatchNothing(ms: seq<Message>)
    ensures Patch(ms, {}) == ms
  {
    if ms != [] {
      PatchNothing(ms[..|ms| - 1]);
      PlaceholdersOfNone(CallsOf(ms[|ms| - 1]));
    }
  }

  lemma {:induction false} PlaceholdersIds(calls: seq<ToolCall>, d: set<string>)
    requires "" !in d
    ensures IssuedIds(Placeholders(calls, d)) == {}
    ensures ResolvedIds(Placeholders(calls, d)) == CallIds(calls) * d
    ensures forall m :: m in Placeholders(calls, d) ==> m.Tool? && m.toolUseId in d
  {
    if calls != [] {
      var n := |calls| - 1;
      assert calls == calls[..n] + [calls[n]];
      PlaceholdersIds(calls[..n], d);
      CallIdsSnoc(calls[..n], calls[n]);
      IdsOfSnoc(Placeholders(calls[..n], d), Placeholder(calls[n]));
      if calls[n].id !in d {
        assert Placeholders(calls, d) == Placeholders(calls[..n], d);
      }
    }
  }

  lemma {:induction false} PatchIds(ms: seq<Message>, d: set<string>)
    requires "" !in d
    ensures IssuedIds(Patch(ms, d)) == IssuedIds(ms)
    ensures ResolvedIds(Patch(ms, d)) == ResolvedIds(ms) + IssuedIds(ms) * d
  {
    hide IssuedIds, ResolvedIds, CallIds, Placeholder;
    IdsOfNone();
    if ms != [] {
      var n := |ms| - 1;
      assert ms == ms[..n] + [ms[n]];
      PatchIds(ms[..n], d);
      PlaceholdersIds(CallsOf(ms[n]), d);
      IdsOfSnoc(ms[..n], ms[n]);
      IdsOfSnoc(Patch(ms[..n], d), ms[n]);
      IdsOfConcat(Patch(ms[..n], d) + [ms[n]], Placeholders(CallsOf(ms[n]), d));
    }
  }

  /** Repair establishes the history invariant and issues no call of its own. */
  lemma RepairAnswers(ms: seq<Message>)
    ensures Answered(Repaired(ms))
    ensures IssuedIds(Repaired(ms)) == IssuedIds(ms)
    ensures ResolvedIds(Repaired(ms)) == ResolvedIds(ms) + IssuedIds(ms)
  {
    PatchIds(ms, Dangling(ms));
  }

  lemma RepairIdempotent(ms: seq<Message>)
    ensures Repaired(Repaired(ms)) == Repaired(ms)
    ensures Repaired(ms) == ms <==> Answered(ms)
  {
    RepairAnswers(ms);
    assert Dangling(Repaired(ms)) == {};
    PatchNothing(Repaired(ms));
    if Answered(ms) {
      assert Dangling(ms) == {};
      PatchNothing(ms);
    }
  }

  /** ms without the tool results whose id is in d. */
  ghost function WithoutResults(ms: seq<Message>, d: set<string>): seq<Message> {
    if ms == [] then [] else
      var last := ms[|ms| - 1];
      WithoutResults(ms[..|ms| - 1], d) + if last.Tool? && last.toolUseId in d then [] else [last]
  }

  lemma {:induction false} WithoutResultsConcat(a: seq<Message>, b: seq<Message>, d: set<string>)
    ensures WithoutResults(a + b, d) == WithoutResults(a, d) + WithoutResults(b, d)
  {
    if b == [] {
      assert a + b == a;
    } else {
      assert (a + b)[..|a + b| - 1] == a + b[..|b| - 1];
      WithoutResultsConcat(a, b[..|b| - 1], d);
    }
  }

  lemma {:induction false} WithoutPlaceholders(ps: seq<Message>, d: set<string>)
    requires forall m :: m in ps ==> m.Tool? && m.toolUseId in d
    ensures WithoutResults(ps, d) == []
  {
    if ps != [] { WithoutPlaceholders(ps[..|ps| - 1], d); }
  }

  lemma {:induction false} UnpatchPrefix(ms: seq<Message>, d: set<string>)
    requires "" !in d && ResolvedIds(ms) !! d
    ensures WithoutResults(Patch(ms, d), d) == ms
  {
    if ms != [] {
      var n := |ms| - 1;
      assert ms == ms[..n] + [ms[n]];
      IdsOfSnoc(ms[..n], ms[n]);
      UnpatchPrefix(ms[..n], d);
      var ps := Placeholders(CallsOf(ms[n]), d);
      PlaceholdersIds(CallsOf(ms[n]), d);
      WithoutResultsConcat(Patch(ms[..n], d) + [ms[n]], ps, d);
      WithoutResultsConcat(Patch(ms[..n], d), [ms[n]], d);
      WithoutPlaceholders(ps, d);
    }
  }

  /** Repair loses nothing: taking the results of the dangling ids out of its output gives the input back. */
  lemma RepairLossless(ms: seq<Message>)
    ensures WithoutResults(Repaired(ms), Dangling(ms)) == ms
  {
    UnpatchPrefix(ms, Dangling(ms));
  }

  /** All tool calls of ms, in order. */
  ghost function CallsIn(ms: seq<Message>): seq<ToolCall> {
    if ms == [] then [] else CallsIn(ms[..|ms| - 1]) + CallsOf(ms[|ms| - 1])
  }

  /** The tool results of ms whose id is in d, in order. */
  ghost function ResultsFor(ms: seq<Message>, d: set<string>): seq<Message> {
    if ms == [] then [] else
      var last := ms[|ms| - 1];
      ResultsFor(ms[..|ms| - 1], d) + if last.Tool? && last.toolUseId in d then [last] else []
  }

  lemma {:induction false} ResultsForConcat(a: seq<Message>, b: seq<Message>, d: set<string>)
    ensures ResultsFor(a + b, d) == ResultsFor(a, d) + ResultsFor(b, d)
  {
    if b == [] {
      assert a + b == a;
    } else {
      assert (a + b)[..|a + b| - 1] == a + b[..|b| - 1];
      ResultsForConcat(a, b[..|b| - 1], d);
    }
  }

  /** r holds one message for each of the calls with an id in d, in order, that tells of its name under its id. */
  ghost predicate OneEach(r: seq<Message>, calls: seq<ToolCall>, d: set<string>) {
    if calls == [] then r == [] else
      var last := calls[|calls| - 1];
      if last.id !in d then OneEach(r, calls[..|calls| - 1], d)
      else r != [] && OneEach(r[..|r| - 1], calls[..|calls| - 1], d)
           && r[|r| - 1].Tool? && r[|r| - 1].toolUseId == last.id
           && r[|r| - 1].content == "[Session interrupted \U{2014} tool '" + last.name + "' was never executed. Ignore this result.]"
  }

  lemma {:induction false} OneEachConcat(r: seq<Message>, a: seq<ToolCall>, s: seq<Message>, b: seq<ToolCall>, d: set<string>)
    requires OneEach(r, a, d) && OneEach(s, b, d)
    ensures OneEach(r + s, a + b, d)
  {
    if b == [] {
      assert a + b == a && r + s == r;
    } else {
      assert (a + b)[..|a + b| - 1] == a + b[..|b| - 1];
      if b[|b| - 1].id in d {
        assert (r + s)[..|r + s| - 1] == r + s[..|s| - 1];
        OneEachConcat(r, a, s[..|s| - 1], b[..|b| - 1], d);
      } else {
        OneEachConcat(r, a, s, b[..|b| - 1], d);
      }
    }
  }

  lemma {:induction false} PlaceholdersOneEach(calls: seq<ToolCall>, d: set<string>)
    ensures ResultsFor(Placeholders(calls, d), d) == Placeholders(calls, d)
    ensures OneEach(Placeholders(calls, d), calls, d)
  {
    if calls != [] {
      var n := |calls| - 1;
      PlaceholdersOneEach(calls[..n], d);
      if calls[n].id in d {
        var r := Placeholders(calls, d);
        assert r[..|r| - 1] == Placeholders(calls[..n], d);
      } else {
        assert Placeholders(calls, d) == Placeholders(calls[..n], d);
      }
    }
  }

  lemma PatchNext(front: seq<Message>, m: Message, ps: seq<Message>, d: set<string>)
    requires ResultsFor(ps, d) == ps && (m.Tool? ==> m.toolUseId !in d)
    ensures ResultsFor(front + [m] + ps, d) == ResultsFor(front, d) + ps
  {
    ResultsForConcat(front + [m], ps, d);
    ResultsForConcat(front, [m], d);
  }

  lemma {:induction false} PatchOneEach(ms: seq<Message>, d: set<string>)
    requires "" !in d && ResolvedIds(ms) !! d
    ensures OneEach(ResultsFor(Patch(ms, d), d), CallsIn(ms), d)
  {
    hide IssuedIds, ResolvedIds, CallIds, OneEach, Placeholders, ResultsFor;
    if ms == [] {
      assert OneEach(ResultsFor([], d), [], d) by { PlaceholdersOneEach([], d); assert Placeholders([], d) == [] by { NoPlaceholders(d); } }
    } else {
      var n := |ms| - 1;
      assert ms == ms[..n] + [ms[n]];
      IdsOfSnoc(ms[..n], ms[n]);
      PatchOneEach(ms[..n], d);
      var front, ps := Patch(ms[..n], d), Placeholders(CallsOf(ms[n]), d);
      PlaceholdersOneEach(CallsOf(ms[n]), d);
      PatchNext(front, ms[n], ps, d);
      OneEachConcat(ResultsFor(front, d), CallsIn(ms[..n]), ps, CallsOf(ms[n]), d);
    }
  }

  lemma NoPlaceholders(d: set<string>)
    ensures Placeholders([], d) == []
  {
  }

  /** Repair adds nothing but one placeholder for each dangling call, in the order of the calls. */
  lemma RepairAddsOneEach(ms: seq<Message>)
    ensures OneEach(ResultsFor(Repaired(ms), Dangling(ms)), CallsIn(ms), Dangling(ms))
  {
    PatchOneEach(ms, Dangling(ms));
  }

  /** A result for id stands at k, and only tool results stand between the assistant message at i and k. */
  ghost predicate AnsweredInBlock(ms: seq<Message>, i: int, k: int, id: string) {
    0 <= i < k < |ms| && ms[k].Tool? && ms[k].toolUseId == id
    && forall j :: i < j < k ==> ms[j].Tool?
  }

  lemma PlaceholderFor(calls: seq<ToolCall>, d: set<string>, tc: ToolCall) returns (k: nat)
    requires "" !in d && tc in calls && tc.id in d
    ensures k < |Placeholders(calls, d)| && Placeholders(calls, d)[k].Tool? && Placeholders(calls, d)[k].toolUseId == tc.id
  {
    PlaceholdersIds(calls, d);
    assert tc.id in ResolvedIds(Placeholders(calls, d));
    var m :| m in Placeholders(calls, d) && m.Tool? && m.toolUseId == tc.id;
    k :| 0 <= k < |Placeholders(calls, d)| && Placeholders(calls, d)[k] == m;
  }

  lemma {:induction false} PatchPlacement(ms: seq<Message>, d: set<string>, i: nat, tc: ToolCall) returns (k: nat)
    requires "" !in d && i < |Patch(ms, d)| && tc in CallsOf(Patch(ms, d)[i]) && tc.id in d
    ensures AnsweredInBlock(Patch(ms, d), i, k, tc.id)
  {
    hide AnsweredInBlock, Placeholders;
    var n := |ms| - 1;
    var front := Patch(ms[..n], d);
    var ps := Placeholders(CallsOf(ms[n]), d);
    PlaceholdersIds(CallsOf(ms[n]), d);
    assert Patch(ms, d) == front + [ms[n]] + ps;
    assert forall j :: 0 <= j < |ps| ==> ps[j] in ps && ps[j].Tool?;
    if i < |front| {
      k := PatchPlacement(ms[..n], d, i, tc);
      AnsweredEarlier(front, [ms[n]] + ps, i, k, tc.id);
      assert front + ([ms[n]] + ps) == front + [ms[n]] + ps;
    } else if i == |front| {
      var p := PlaceholderFor(CallsOf(ms[n]), d, tc);
      k := |front| + 1 + p;
      AnsweredHere(front, ms[n], ps, p, tc.id);
    } else {
      assert false;
    }
  }

  lemma AnsweredEarlier(front: seq<Message>, more: seq<Message>, i: int, k: int, id: string)
    requires AnsweredInBlock(front, i, k, id)
    ensures AnsweredInBlock(front + more, i, k, id)
  {
    assert forall j :: 0 <= j <= k ==> (front + more)[j] == front[j];
  }

  lemma AnsweredHere(front: seq<Message>, m: Message, ps: seq<Message>, p: nat, id: string)
    requires p < |ps| && ps[p].Tool? && ps[p].toolUseId == id && forall j :: 0 <= j < |ps| ==> ps[j].Tool?
    ensures AnsweredInBlock(front + [m] + ps, |front|, |front| + 1 + p, id)
  {
    var all := front + [m] + ps;
    assert forall j :: 0 <= j < |ps| ==> all[|front| + 1 + j] == ps[j];
    assert forall j :: |front| < j < |all| ==> all[j] == ps[j - |front| - 1];
  }

  /**
   * Every dangling call is answered in the block of results directly behind its own assistant message,
   * which is where the Anthropic API looks for it.
   */
  lemma RepairPlacement(ms: seq<Message>, i: nat, tc: ToolCall)
    requires i < |Repaired(ms)| && tc in CallsOf(Repaired(ms)[i]) && tc.id in Dangling(ms)
    ensures exists k :: AnsweredInBlock(Repaired(ms), i, k, tc.id)
  {
    var k := PatchPlacement(ms, Dangling(ms), i, tc);
  }
}
