/** Which histories the script's Anthropic check of its own build lets through. */
module AnthropicCheck {
  import opened Prelude
  import opened Messages
  import opened AnthropicBuilder
  import opened AnthropicSafety
  import opened ScriptBuilders
  import opened Validators
  import opened CrossProvider

  // ----- The condition on the history -----

  /** The messages that reach the request: all but the results of calls that no message before them announced. */
  ghost function Visible(ms: seq<Message>): seq<Message> {
    if ms == [] then [] else
      var n := |ms| - 1;
      Visible(ms[..n]) + if ms[n].Tool? && ms[n].toolUseId !in Announced(ms[..n]) then [] else [ms[n]]
  }

  /** Assistant turns and others alternate, and the first is not an assistant's. */
  ghost predicate Alternate(vis: seq<Message>) {
    (vis != [] ==> !vis[0].Assistant?) && forall i :: 0 < i < |vis| ==> vis[i].Assistant? != vis[i - 1].Assistant?
  }

  /** The announced calls of an assistant turn share one id, and its result comes next. */
  ghost predicate AnsweredNext(vis: seq<Message>, i: nat)
    requires i < |vis|
  {
    TurnCallIds(CallsOf(vis[i])) == {}
    || (i + 1 < |vis| && vis[i + 1].Tool? && TurnCallIds(CallsOf(vis[i])) == {vis[i + 1].toolUseId})
  }

  ghost predicate Acceptable(ms: seq<Message>) {
    Alternate(Visible(ms)) && forall i :: 0 <= i < |Visible(ms)| ==> AnsweredNext(Visible(ms), i)
  }

  // ----- The build, message by message -----

  /** What the check sees of a message. */
  ghost predicate Shows(m: Message, am: ApiMessage) {
    (am.role == AssistantRole <==> m.Assistant?)
    && ToSet(UseIdList(am.content)) == TurnCallIds(CallsOf(m))
    && ResultIdSet(am.content) == if m.Tool? then {m.toolUseId} else {}
  }

  lemma {:induction false} UsesListed(calls: seq<ToolCall>, keep: set<string>)
    requires CallIds(calls) <= keep
    ensures ToSet(UseIdList(Uses(calls, keep))) == TurnCallIds(calls)
  {
    if calls == [] {
      assert ToSet(UseIdList(Uses(calls, keep))) == {};
      assert TurnCallIds(calls) == {};
    } else {
      var n := |calls| - 1;
      assert calls == calls[..n] + [calls[n]];
      UsesIds(calls, keep);
      forall id ensures id in UseIdList(Uses(calls, keep)) <==> id in TurnCallIds(calls) {
        if id in TurnCallIds(calls) {
          var tc :| tc in calls && WellFormed(tc) && tc.id == id;
          assert tc.id in CallIds(calls);
          assert ToolUse(tc.id, tc.name, tc.input) in Uses(calls, keep);
        }
      }
    }
  }

  lemma AssistantShows(content: string, calls: seq<ToolCall>)
    ensures var blocks := Blocks(content, calls, CallIds(calls));
      ToSet(UseIdList(blocks)) == TurnCallIds(calls) && ResultIdSet(blocks) == {}
  {
    hide Uses, TurnCallIds, CallIds;
    var uses := Uses(calls, CallIds(calls));
    UsesListed(calls, CallIds(calls));
    UsesIds(calls, CallIds(calls));
    assert forall b :: b in Blocks(content, calls, CallIds(calls)) <==> b in uses || (content != "" && b == TextBlock(content));
    assert forall id :: id in UseIdList(Blocks(content, calls, CallIds(calls))) <==> id in UseIdList(uses);
  }

  lemma NoneListed(text: string, id: string, content: string)
    ensures UseIdList([TextBlock(text)]) == [] && ResultIdSet([TextBlock(text)]) == {}
    ensures UseIdList([ToolResult(id, content)]) == [] && ResultIdSet([ToolResult(id, content)]) == {id}
  {
    var r := [ToolResult(id, content)];
    assert r[0] in r;
  }

  lemma OneShows(m: Message, announced: set<string>)
    ensures var turn := AnthropicOne(m, announced);
      if m.Tool? && m.toolUseId !in announced then turn == [] else |turn| == 1 && Shows(m, turn[0])
  {
    hide TurnCallIds, UseIdList, ResultIdSet, Blocks, CallIds;
    match m
    case User(content) => NoneListed(content, "", ""); NoTurnCalls();
    case Tool(content, id) => NoneListed("", id, content); NoTurnCalls();
    case Assistant(content, calls) =>
      NoneListed("", "", "");
      AssistantShows(content, calls);
      if Blocks(content, calls, CallIds(calls)) == [] { NoBlocks(content, calls); }
  }

  lemma NoBlocks(content: string, calls: seq<ToolCall>)
    requires Blocks(content, calls, CallIds(calls)) == []
    ensures TurnCallIds(calls) == {}
  {
    AssistantShows(content, calls);
  }

  lemma {:induction false} BuildShows(ms: seq<Message>)
    ensures |AnthropicBuild(ms)| == |Visible(ms)|
    ensures forall i :: 0 <= i < |Visible(ms)| ==> Shows(Visible(ms)[i], AnthropicBuild(ms)[i])
  {
    hide AnthropicOne, Shows, Announced;
    if ms != [] {
      var n := |ms| - 1;
      BuildShows(ms[..n]);
      OneShows(ms[n], Announced(ms[..n]));
    }
  }

  // ----- The check, message by message -----

  lemma {:induction false} RolesPass(api: seq<ApiMessage>, n: nat)
    requires n <= |api|
    ensures Passed(RoleIssues(api, n)) <==> forall i :: 0 < i < n ==> api[i].role != api[i - 1].role
  {
    if n > 0 {
      RolesPass(api, n - 1);
      PassedConcat(RoleIssues(api, n - 1), RoleIssue(api, n - 1));
      assert RoleIssue(api, n - 1) != [] ==> RoleIssue(api, n - 1)[0].isError;
    }
  }

  lemma PassedConcat(a: seq<Issue>, b: seq<Issue>)
    ensures Passed(a + b) <==> Passed(a) && Passed(b)
  {
    assert forall x :: x in a + b <==> x in a || x in b;
  }

  lemma {:induction false} PairsPass(api: seq<ApiMessage>, n: nat)
    requires n <= |api|
    ensures Passed(AllPairingIssues(api, n)) <==> forall i :: 0 <= i < n ==> PairingIssues(api, i) == []
  {
    hide PairingIssues;
    if n > 0 {
      PairsPass(api, n - 1);
      PassedConcat(AllPairingIssues(api, n - 1), PairingIssues(api, n - 1));
      ErrorsFail(PairingIssues(api, n - 1));
    }
  }

  lemma {:induction false} OrphansPass(api: seq<ApiMessage>, n: nat, issued: set<string>)
    requires n <= |api|
    ensures Passed(AllOrphans(api, n, issued))
  {
    if n > 0 {
      OrphansPass(api, n - 1, issued);
      BlocksPass(n - 1, api[n - 1].content, issued);
      PassedConcat(AllOrphans(api, n - 1, issued), if api[n - 1].role == UserRole then OrphanBlocks(n - 1, api[n - 1].content, issued) else []);
    }
  }

  lemma {:induction false} BlocksPass(i: nat, blocks: seq<Block>, issued: set<string>)
    ensures Passed(OrphanBlocks(i, blocks, issued))
  {
    if blocks != [] { BlocksPass(i, blocks[..|blocks| - 1], issued); }
  }

  lemma IssuesPass(api: seq<ApiMessage>)
    ensures Passed(AnthropicIssues(api)) <==>
      (api != [] ==> api[0].role == UserRole)
      && (forall i :: 0 < i < |api| ==> api[i].role != api[i - 1].role)
      && forall i :: 0 <= i < |api| ==> PairingIssues(api, i) == []
  {
    hide RoleIssues, AllPairingIssues, AllOrphans, PairingIssues;
    if api != [] {
      var first := if api[0].role != UserRole then [Issue(true, 0, FirstNotUser)] else [];
      var roles, pairs, orphans := RoleIssues(api, |api|), AllPairingIssues(api, |api|), AllOrphans(api, |api|, AssistantIds(api, |api|));
      RolesPass(api, |api|);
      PairsPass(api, |api|);
      OrphansPass(api, |api|, AssistantIds(api, |api|));
      PassedConcat(first + roles + pairs, orphans);
      PassedConcat(first + roles, pairs);
      PassedConcat(first, roles);
      assert Passed(first) <==> api[0].role == UserRole by { if first != [] { assert first[0] in first; } }
    }
  }

  /** The pairing rule for one message, in the terms of the history. */
  lemma PairingShows(vis: seq<Message>, api: seq<ApiMessage>, i: nat)
    requires |vis| == |api| && i < |vis| && forall k :: 0 <= k < |vis| ==> Shows(vis[k], api[k])
    ensures PairingIssues(api, i) == [] <==> AnsweredNext(vis, i)
  {
    hide TurnCallIds, ResultIdSet;
    NoTurnCalls();
    var ids := UseIdList(api[i].content);
    assert ids == [] <==> ToSet(ids) == {} by { if ids != [] { assert ids[0] in ToSet(ids); } }
    if vis[i].Assistant? && ids != [] && i + 1 < |api| {
      var next := ResultIdSet(api[i + 1].content);
      assert (forall id :: id in ids ==> id in next) <==> ToSet(ids) <= next;
      if vis[i + 1].Tool? { assert ToSet(ids) <= {vis[i + 1].toolUseId} <==> ToSet(ids) == {vis[i + 1].toolUseId}; }
    }
  }

  /**
   * The check lets a history through exactly when, orphaned results aside, it does not begin with an assistant turn, assistant turns
   * and others alternate, and the announced calls of each assistant turn share one id, whose result comes next.
   */
  lemma PassesExact(ms: seq<Message>)
    ensures Passed(AnthropicIssues(AnthropicBuild(ms))) <==> Acceptable(ms)
  {
    hide AnthropicIssues, AnthropicBuild, Visible, PairingIssues, AnsweredNext;
    var vis, api := Visible(ms), AnthropicBuild(ms);
    BuildShows(ms);
    IssuesPass(api);
    forall i | 0 <= i < |vis| ensures PairingIssues(api, i) == [] <==> AnsweredNext(vis, i) {
      PairingShows(vis, api, i);
    }
    assert forall i :: 0 <= i < |vis| ==> (api[i].role == AssistantRole <==> vis[i].Assistant?);
  }

  lemma {:induction false} AssistantsVisible(ms: seq<Message>, m: Message)
    requires m in ms && m.Assistant?
    ensures m in Visible(ms)
  {
    var n := |ms| - 1;
    if ms[n] != m { AssistantsVisible(ms[..n], m); }
  }

  /** Two announced calls with different ids in one turn never pass, whatever answers them: each result is a message of its own. */
  lemma TwoCallsFail(ms: seq<Message>, m: Message, a: string, b: string)
    requires m in ms && m.Assistant? && a in TurnCallIds(m.calls) && b in TurnCallIds(m.calls) && a != b
    ensures !Passed(AnthropicIssues(AnthropicBuild(ms)))
  {
    hide AnthropicIssues, AnthropicBuild, Visible, TurnCallIds;
    PassesExact(ms);
    AssistantsVisible(ms, m);
    var i :| 0 <= i < |Visible(ms)| && Visible(ms)[i] == m;
    assert !AnsweredNext(Visible(ms), i);
  }
}
