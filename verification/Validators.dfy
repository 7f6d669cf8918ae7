/** scripts/validate_llm_messages.py: the four checks it runs, on a history and on the three requests built from it. */
module Validators {
  import opened Prelude
  import opened Messages
  import opened AnthropicBuilder
  import opened ScriptBuilders

  datatype Kind =
    | MissingId(name: string)
    | MissingName(id: string)
    | NoToolUseId
    | Orphan(id: string)
    | Unanswered(id: string)
    | FirstNotUser
    | SameRoleTwice
    | NothingFollows
    | NoUserFollows
    | NotSatisfied(id: string)

  datatype Issue = Issue(isError: bool, index: nat, kind: Kind)

  predicate Passed(issues: seq<Issue>) {
    forall x :: x in issues ==> !x.isError
  }

  // ----- Ids a list issues, position by position -----

  ghost function KeySet(ks: seq<string>): set<string> {
    set k | k in ks && k != "" :: k
  }

  ghost function AllKeys(keys: seq<seq<string>>): set<string> {
    set ks, k | ks in keys && k in ks && k != "" :: k
  }

  lemma AllKeysSnoc(keys: seq<seq<string>>, ks: seq<string>)
    ensures AllKeys(keys + [ks]) == AllKeys(keys) + KeySet(ks)
  {
    assert forall x :: x in keys + [ks] <==> x in keys || x == ks;
  }

  lemma KeySetSnoc(ks: seq<string>, k: string)
    ensures KeySet(ks + [k]) == KeySet(ks) + if k != "" then {k} else {}
  {
    var all := ks + [k];
    assert all[|ks|] == k && forall j :: 0 <= j < |ks| ==> all[j] == ks[j];
    forall x | x in KeySet(ks) ensures x in KeySet(all) {
      assert x in all;
    }
    assert k in all;
  }

  /** k is issued at position i and at no later one, as the value a dict ends up with. */
  ghost predicate IssuedLastAt(keys: seq<seq<string>>, k: string, i: nat) {
    i < |keys| && k in keys[i] && forall j :: i < j < |keys| ==> k !in keys[j]
  }

  /** The position IssuedLastAt speaks of, or -1. */
  function LastIn(keys: seq<seq<string>>, k: string): (r: int)
    ensures -1 <= r < |keys|
    ensures if r >= 0 then IssuedLastAt(keys, k, r) else forall j :: 0 <= j < |keys| ==> k !in keys[j]
  {
    if keys == [] then -1 else if k in keys[|keys| - 1] then |keys| - 1 else LastIn(keys[..|keys| - 1], k)
  }

  /** The insertion order of a dict when the keys of one more position are put into it. */
  function OrderWith(order: seq<string>, ks: seq<string>): seq<string> {
    if ks == [] then order else
      var before := OrderWith(order, ks[..|ks| - 1]);
      var k := ks[|ks| - 1];
      if k != "" && k !in before then before + [k] else before
  }

  function InsertionOrder(keys: seq<seq<string>>): seq<string> {
    if keys == [] then [] else OrderWith(InsertionOrder(keys[..|keys| - 1]), keys[|keys| - 1])
  }

  ghost predicate NoRepeats(s: seq<string>) {
    forall i, j :: 0 <= i < j < |s| ==> s[i] != s[j]
  }

  lemma {:induction false} OrderWithIs(order: seq<string>, ks: seq<string>)
    ensures forall k :: k in OrderWith(order, ks) <==> k in order || k in KeySet(ks)
    ensures NoRepeats(order) ==> NoRepeats(OrderWith(order, ks))
  {
    if ks != [] {
      var n := |ks| - 1;
      OrderWithIs(order, ks[..n]);
      assert ks == ks[..n] + [ks[n]];
      KeySetSnoc(ks[..n], ks[n]);
    }
  }

  /** The order holds each issued id once. */
  lemma {:induction false} InsertionOrderIs(keys: seq<seq<string>>)
    ensures forall k :: k in InsertionOrder(keys) <==> k in AllKeys(keys)
    ensures NoRepeats(InsertionOrder(keys))
  {
    if keys != [] {
      hide KeySet, AllKeys, OrderWith;
      var n := |keys| - 1;
      InsertionOrderIs(keys[..n]);
      assert keys == keys[..n] + [keys[n]];
      AllKeysSnoc(keys[..n], keys[n]);
      OrderWithIs(InsertionOrder(keys[..n]), keys[n]);
    }
  }

  /** One position's keys go into the issued dict and its insertion order. */
  method Record(ks: seq<string>, i: nat, before: map<string, nat>, orderBefore: seq<string>)
    returns (issued: map<string, nat>, order: seq<string>)
    requires forall k :: k in orderBefore <==> k in before
    ensures issued.Keys == before.Keys + KeySet(ks)
    ensures order == OrderWith(orderBefore, ks) && forall k :: k in order <==> k in issued
    ensures forall k :: k in issued ==> issued[k] == if k in KeySet(ks) then i else before[k]
  {
    issued, order := before, orderBefore;
    for j := 0 to |ks|
      invariant issued.Keys == before.Keys + KeySet(ks[..j])
      invariant order == OrderWith(orderBefore, ks[..j]) && forall k :: k in order <==> k in issued
      invariant forall k :: k in issued ==> issued[k] == if k in KeySet(ks[..j]) then i else before[k]
    {
      assert ks[..j + 1] == ks[..j] + [ks[j]] && ks[..j + 1][..j] == ks[..j];
      KeySetSnoc(ks[..j], ks[j]);
      if ks[j] != "" {
        if ks[j] !in issued {
          order := order + [ks[j]];
        }
        issued := issued[ks[j] := i];
      }
    }
    assert ks[..|ks|] == ks;
  }

  method CollectIssued(keys: seq<seq<string>>) returns (issued: map<string, nat>, order: seq<string>)
    ensures issued.Keys == AllKeys(keys)
    ensures order == InsertionOrder(keys) && forall k :: k in order <==> k in issued
    ensures forall k :: k in issued ==> issued[k] == LastIn(keys, k)
  {
    issued, order := map[], [];
    for i := 0 to |keys|
      invariant issued.Keys == AllKeys(keys[..i])
      invariant order == InsertionOrder(keys[..i]) && forall k :: k in order <==> k in issued
      invariant forall k :: k in issued ==> k != "" && issued[k] == LastIn(keys[..i], k)
    {
      hide OrderWith, AllKeys;
      assert keys[..i + 1] == keys[..i] + [keys[i]] && keys[..i + 1][..i] == keys[..i];
      AllKeysSnoc(keys[..i], keys[i]);
      issued, order := Record(keys[i], i, issued, order);
    }
    assert keys[..|keys|] == keys;
  }

  ghost predicate UnansweredAt(keys: seq<seq<string>>, satisfied: set<string>, x: Issue) {
    x.isError && x.kind.Unanswered? && x.kind.id in AllKeys(keys) && x.kind.id !in satisfied
    && IssuedLastAt(keys, x.kind.id, x.index)
  }

  /** One error, in the order of the dict, for each id that nothing satisfies, at the position that issued it last. */
  function UnansweredIssues(keys: seq<seq<string>>, satisfied: set<string>, order: seq<string>): seq<Issue>
    requires forall k :: k in order ==> LastIn(keys, k) >= 0
  {
    if order == [] then [] else
      var n := |order| - 1;
      assert order[n] in order && forall k :: k in order[..n] ==> k in order;
      UnansweredIssues(keys, satisfied, order[..n])
      + if order[n] in satisfied then [] else [Issue(true, LastIn(keys, order[n]), Unanswered(order[n]))]
  }

  /** The issues are front, in order, and behind it the unanswered ids, in the order in which they were first issued. */
  ghost predicate Reports(issues: seq<Issue>, front: seq<Issue>, keys: seq<seq<string>>, satisfied: set<string>) {
    (forall k :: k in InsertionOrder(keys) ==> LastIn(keys, k) >= 0)
    && issues == front + UnansweredIssues(keys, satisfied, InsertionOrder(keys))
  }

  lemma {:induction false} UnansweredIssuesAre(keys: seq<seq<string>>, satisfied: set<string>, order: seq<string>)
    requires forall k :: k in order ==> LastIn(keys, k) >= 0 && k in AllKeys(keys)
    ensures forall x :: (x in UnansweredIssues(keys, satisfied, order) <==> UnansweredAt(keys, satisfied, x) && x.kind.id in order)
  {
    hide LastIn;
    if order != [] {
      var n := |order| - 1;
      assert order == order[..n] + [order[n]];
      UnansweredIssuesAre(keys, satisfied, order[..n]);
    }
  }

  /** The issues reported behind front are exactly the errors for the issued ids that nothing satisfies. */
  lemma ReportsAre(issues: seq<Issue>, front: seq<Issue>, keys: seq<seq<string>>, satisfied: set<string>)
    requires Reports(issues, front, keys, satisfied)
    ensures front <= issues && forall x :: x in issues[|front|..] <==> UnansweredAt(keys, satisfied, x)
  {
    hide LastIn, InsertionOrder, UnansweredIssues, AllKeys;
    InsertionOrderIs(keys);
    UnansweredIssuesAre(keys, satisfied, InsertionOrder(keys));
    assert issues[|front|..] == UnansweredIssues(keys, satisfied, InsertionOrder(keys));
  }

  /** The last loop of three of the checks: an error for each issued id that nothing satisfies. */
  method Unsatisfied(ghost keys: seq<seq<string>>, issued: map<string, nat>, order: seq<string>, satisfied: set<string>)
    returns (issues: seq<Issue>)
    requires forall k :: k in order ==> k in issued && issued[k] == LastIn(keys, k)
    ensures (forall k :: k in order ==> LastIn(keys, k) >= 0) && issues == UnansweredIssues(keys, satisfied, order)
  {
    issues := [];
    for i := 0 to |order|
      invariant (forall k :: k in order[..i] ==> LastIn(keys, k) >= 0) && issues == UnansweredIssues(keys, satisfied, order[..i])
    {
      hide LastIn;
      assert order[..i + 1] == order[..i] + [order[i]] && order[..i + 1][..i] == order[..i];
      if order[i] !in satisfied {
        issues := issues + [Issue(true, issued[order[i]], Unanswered(order[i]))];
      }
    }
    assert order[..|order|] == order;
  }

  /** Only issued ids matter among the satisfied ones. */
  lemma {:induction false} SatisfiedIssued(keys: seq<seq<string>>, all: set<string>, satisfied: set<string>, order: seq<string>)
    requires satisfied == all * AllKeys(keys)
    requires forall k :: k in order ==> LastIn(keys, k) >= 0 && k in AllKeys(keys)
    ensures UnansweredIssues(keys, satisfied, order) == UnansweredIssues(keys, all, order)
  {
    hide LastIn, AllKeys;
    if order != [] {
      var n := |order| - 1;
      assert forall k :: k in order[..n] ==> k in order;
      SatisfiedIssued(keys, all, satisfied, order[..n]);
    }
  }

  // ----- The internal check -----

  function NamedIds(calls: seq<ToolCall>): (r: seq<string>)
    ensures forall id :: id in r <==> exists tc :: tc in calls && WellFormed(tc) && tc.id == id
  {
    if calls == [] then [] else
      var last := calls[|calls| - 1];
      NamedIds(calls[..|calls| - 1]) + if WellFormed(last) then [last.id] else []
  }

  ghost function MessageKeys(ms: seq<Message>): (r: seq<seq<string>>)
    ensures |r| == |ms|
  {
    seq(|ms|, i requires 0 <= i < |ms| => NamedIds(CallsOf(ms[i])))
  }

  lemma MessageKeysAnnounced(ms: seq<Message>)
    ensures AllKeys(MessageKeys(ms)) == Announced(ms)
  {
    var keys := MessageKeys(ms);
    forall id | id in Announced(ms) ensures id in AllKeys(keys) {
      var i, tc :| 0 <= i < |ms| && tc in CallsOf(ms[i]) && WellFormed(tc) && tc.id == id;
      assert keys[i] in keys && id in keys[i];
    }
    forall id | id in AllKeys(keys) ensures id in Announced(ms) {
      var i :| 0 <= i < |keys| && id in keys[i];
      assert ms[i] in ms;
    }
  }

  function CallIssues(i: nat, calls: seq<ToolCall>): seq<Issue> {
    if calls == [] then [] else
      var last := calls[|calls| - 1];
      CallIssues(i, calls[..|calls| - 1])
      + if last.id == "" then [Issue(false, i, MissingId(last.name))]
        else if last.name == "" then [Issue(false, i, MissingName(last.id))] else []
  }

  ghost function AllCallIssues(ms: seq<Message>): seq<Issue> {
    if ms == [] then [] else
      var n := |ms| - 1;
      AllCallIssues(ms[..n]) + CallIssues(n, CallsOf(ms[n]))
  }

  function ToolIssue(i: nat, m: Message, issued: set<string>): seq<Issue> {
    if !m.Tool? then []
    else if m.toolUseId == "" then [Issue(true, i, NoToolUseId)]
    else if m.toolUseId !in issued then [Issue(false, i, Orphan(m.toolUseId))]
    else []
  }

  ghost function AllToolIssues(ms: seq<Message>, issued: set<string>): seq<Issue> {
    if ms == [] then [] else
      var n := |ms| - 1;
      AllToolIssues(ms[..n], issued) + ToolIssue(n, ms[n], issued)
  }

  method CheckCalls(raw: seq<Message>) returns (issues: seq<Issue>, keys: seq<seq<string>>)
    ensures issues == AllCallIssues(raw) && keys == MessageKeys(raw)
  {
    issues, keys := [], [];
    for i := 0 to |raw|
      invariant issues == AllCallIssues(raw[..i]) && keys == MessageKeys(raw[..i])
    {
      assert raw[..i + 1][..i] == raw[..i];
      issues := issues + CallIssues(i, CallsOf(raw[i]));
      keys := keys + [NamedIds(CallsOf(raw[i]))];
      assert keys == MessageKeys(raw[..i + 1]);
    }
    assert raw[..|raw|] == raw;
  }

  method CheckTools(raw: seq<Message>, issued: set<string>) returns (issues: seq<Issue>, satisfied: set<string>)
    ensures issues == AllToolIssues(raw, issued)
    ensures satisfied == ResolvedIds(raw) * issued
  {
    hide ResolvedIds, IssuedIds;
    IdsOfNone();
    issues, satisfied := [], {};
    for i := 0 to |raw|
      invariant issues == AllToolIssues(raw[..i], issued)
      invariant satisfied == ResolvedIds(raw[..i]) * issued
    {
      assert raw[..i + 1] == raw[..i] + [raw[i]] && raw[..i + 1][..i] == raw[..i];
      IdsOfSnoc(raw[..i], raw[i]);
      issues := issues + ToolIssue(i, raw[i], issued);
      if raw[i].Tool? && raw[i].toolUseId != "" && raw[i].toolUseId in issued {
        satisfied := satisfied + {raw[i].toolUseId};
      }
    }
    assert raw[..|raw|] == raw;
  }

  method ValidateInternal(raw: seq<Message>) returns (issues: seq<Issue>)
    ensures Reports(issues, AllCallIssues(raw) + AllToolIssues(raw, Announced(raw)), MessageKeys(raw), ResolvedIds(raw))
  {
    var keys;
    issues, keys := CheckCalls(raw);
    MessageKeysAnnounced(raw);
    var issued, order := CollectIssued(keys);
    var more, satisfied := CheckTools(raw, issued.Keys);
    var last := Unsatisfied(keys, issued, order, satisfied);
    issues := issues + more + last;
    SatisfiedIssued(keys, ResolvedIds(raw), satisfied, order);
  }

  // ----- Anthropic -----

  /** The non-empty ids of the tool_use blocks of one message, in order. */
  function UseIdList(blocks: seq<Block>): (r: seq<string>)
    ensures forall id :: id in r <==> id != "" && exists b :: b in blocks && b.ToolUse? && b.id == id
  {
    if blocks == [] then [] else
      var last := blocks[|blocks| - 1];
      assert forall b :: b in blocks <==> b in blocks[..|blocks| - 1] || b == last;
      UseIdList(blocks[..|blocks| - 1]) + if last.ToolUse? && last.id != "" then [last.id] else []
  }

  function ResultIdSet(blocks: seq<Block>): set<string> {
    set b | b in blocks && b.ToolResult? :: b.toolUseId
  }

  function RoleIssue(api: seq<ApiMessage>, i: nat): seq<Issue>
    requires i < |api|
  {
    if i > 0 && api[i - 1].role == api[i].role then [Issue(true, i, SameRoleTwice)] else []
  }

  function MissingResults(i: nat, ids: seq<string>, results: set<string>): (r: seq<Issue>)
    ensures r == [] <==> forall id :: id in ids ==> id in results
    ensures forall x :: x in r ==> x.isError
  {
    if ids == [] then [] else
      var last := ids[|ids| - 1];
      assert forall id :: id in ids <==> id in ids[..|ids| - 1] || id == last;
      MissingResults(i, ids[..|ids| - 1], results) + if last in results then [] else [Issue(true, i, NotSatisfied(last))]
  }

  function PairingIssues(api: seq<ApiMessage>, i: nat): (r: seq<Issue>)
    requires i < |api|
    ensures forall x :: x in r ==> x.isError
  {
    var ids := UseIdList(api[i].content);
    if api[i].role != AssistantRole || ids == [] then []
    else if i + 1 >= |api| then [Issue(true, i, NothingFollows)]
    else if api[i + 1].role != UserRole then [Issue(true, i + 1, NoUserFollows)]
    else MissingResults(i, ids, ResultIdSet(api[i + 1].content))
  }

  function OrphanBlocks(i: nat, blocks: seq<Block>, issued: set<string>): seq<Issue> {
    if blocks == [] then [] else
      var last := blocks[|blocks| - 1];
      OrphanBlocks(i, blocks[..|blocks| - 1], issued)
      + if last.ToolResult? && last.toolUseId != "" && last.toolUseId !in issued then [Issue(false, i, Orphan(last.toolUseId))] else []
  }

  ghost function RoleIssues(api: seq<ApiMessage>, n: nat): seq<Issue>
    requires n <= |api|
  {
    if n == 0 then [] else RoleIssues(api, n - 1) + RoleIssue(api, n - 1)
  }

  ghost function AllPairingIssues(api: seq<ApiMessage>, n: nat): seq<Issue>
    requires n <= |api|
  {
    if n == 0 then [] else AllPairingIssues(api, n - 1) + PairingIssues(api, n - 1)
  }

  ghost function AllOrphans(api: seq<ApiMessage>, n: nat, issued: set<string>): seq<Issue>
    requires n <= |api|
  {
    if n == 0 then [] else
      AllOrphans(api, n - 1, issued)
      + if api[n - 1].role == UserRole then OrphanBlocks(n - 1, api[n - 1].content, issued) else []
  }

  ghost function AssistantIds(api: seq<ApiMessage>, n: nat): set<string>
    requires n <= |api|
  {
    if n == 0 then {} else
      AssistantIds(api, n - 1) + if api[n - 1].role == AssistantRole then ToSet(UseIdList(api[n - 1].content)) else {}
  }

  ghost function AnthropicIssues(api: seq<ApiMessage>): seq<Issue> {
    if api == [] then [] else
      (if api[0].role != UserRole then [Issue(true, 0, FirstNotUser)] else [])
      + RoleIssues(api, |api|) + AllPairingIssues(api, |api|) + AllOrphans(api, |api|, AssistantIds(api, |api|))
  }

  method ValidateAnthropic(api: seq<ApiMessage>) returns (issues: seq<Issue>)
    ensures issues == AnthropicIssues(api)
  {
    hide RoleIssue, PairingIssues, OrphanBlocks;
    issues := [];
    if api == [] {
      return;
    }
    var first := if api[0].role != UserRole then [Issue(true, 0, FirstNotUser)] else [];
    var roles, pairs, orphans: seq<Issue> := [], [], [];
    for i := 0 to |api|
      invariant roles == RoleIssues(api, i)
    {
      roles := roles + RoleIssue(api, i);
    }
    var issued: set<string> := {};
    for i := 0 to |api|
      invariant pairs == AllPairingIssues(api, i) && issued == AssistantIds(api, i)
    {
      pairs := pairs + PairingIssues(api, i);
      if api[i].role == AssistantRole {
        issued := issued + ToSet(UseIdList(api[i].content));
      }
    }
    for i := 0 to |api|
      invariant orphans == AllOrphans(api, i, issued)
    {
      if api[i].role == UserRole {
        orphans := orphans + OrphanBlocks(i, api[i].content, issued);
      }
    }
    issues := first + roles + pairs + orphans;
  }

  // ----- OpenAI -----

  function IdsOf(calls: seq<ToolCall>): (r: seq<string>)
    ensures |r| == |calls| && forall i :: 0 <= i < |calls| ==> r[i] == calls[i].id
  {
    seq(|calls|, i requires 0 <= i < |calls| => calls[i].id)
  }

  function OpenAiKeys(api: seq<OpenAiMessage>): (r: seq<seq<string>>)
    ensures |r| == |api|
  {
    seq(|api|, i requires 0 <= i < |api| =>
      if api[i].AssistantTurn? && api[i].calls.Some? then IdsOf(api[i].calls.value) else [])
  }

  ghost function OpenAiAnswers(api: seq<OpenAiMessage>): set<string> {
    set m | m in api && m.ToolTurn? :: m.toolCallId
  }

  ghost function OpenAiOrphans(api: seq<OpenAiMessage>, issued: set<string>): seq<Issue> {
    if api == [] then [] else
      var n := |api| - 1;
      OpenAiOrphans(api[..n], issued)
      + if api[n].ToolTurn? && api[n].toolCallId !in issued && api[n].toolCallId != "" then [Issue(false, n, Orphan(api[n].toolCallId))] else []
  }

  method CheckToolTurns(api: seq<OpenAiMessage>, issued: set<string>) returns (issues: seq<Issue>, satisfied: set<string>)
    ensures issues == OpenAiOrphans(api, issued) && satisfied == OpenAiAnswers(api) * issued
  {
    issues, satisfied := [], {};
    for i := 0 to |api|
      invariant issues == OpenAiOrphans(api[..i], issued) && satisfied == OpenAiAnswers(api[..i]) * issued
    {
      assert api[..i + 1][..i] == api[..i];
      assert forall x :: x in api[..i + 1] <==> x in api[..i] || x == api[i];
      if api[i].ToolTurn? {
        if api[i].toolCallId in issued {
          satisfied := satisfied + {api[i].toolCallId};
        } else if api[i].toolCallId != "" {
          issues := issues + [Issue(false, i, Orphan(api[i].toolCallId))];
        }
      }
    }
    assert api[..|api|] == api;
  }

  method ValidateOpenAi(api: seq<OpenAiMessage>) returns (issues: seq<Issue>)
    ensures Reports(issues, OpenAiOrphans(api, AllKeys(OpenAiKeys(api))), OpenAiKeys(api), OpenAiAnswers(api))
  {
    hide OpenAiOrphans, OpenAiAnswers, OpenAiKeys, AllKeys;
    var keys := OpenAiKeys(api);
    var issued, order := CollectIssued(keys);
    var satisfied;
    issues, satisfied := CheckToolTurns(api, issued.Keys);
    var last := Unsatisfied(keys, issued, order, satisfied);
    issues := issues + last;
    SatisfiedIssued(keys, OpenAiAnswers(api), satisfied, order);
  }

  // ----- Gemini -----

  function PartKey(p: Part): string {
    if !p.FunctionCall? then "" else if p.callId != "" then p.callId else p.callName
  }

  function AnswerKey(p: Part): string {
    if !p.FunctionResponse? then "" else if p.responseId != "" then p.responseId else p.responseName
  }

  function GeminiKeys(contents: seq<GeminiContent>): (r: seq<seq<string>>)
    ensures |r| == |contents|
  {
    seq(|contents|, i requires 0 <= i < |contents| =>
      if contents[i].isModel then seq(|contents[i].parts|, j requires 0 <= j < |contents[i].parts| => PartKey(contents[i].parts[j])) else [])
  }

  function AnswerKeys(c: GeminiContent): set<string> {
    if c.isModel then {} else set p | p in c.parts && AnswerKey(p) != "" :: AnswerKey(p)
  }

  ghost function GeminiAnswers(contents: seq<GeminiContent>): set<string> {
    if contents == [] then {} else GeminiAnswers(contents[..|contents| - 1]) + AnswerKeys(contents[|contents| - 1])
  }

  function PartOrphans(i: nat, parts: seq<Part>, issued: set<string>): seq<Issue> {
    if parts == [] then [] else
      var last := parts[|parts| - 1];
      PartOrphans(i, parts[..|parts| - 1], issued)
      + if AnswerKey(last) != "" && AnswerKey(last) !in issued then [Issue(false, i, Orphan(AnswerKey(last)))] else []
  }

  ghost function GeminiOrphans(contents: seq<GeminiContent>, issued: set<string>): seq<Issue> {
    if contents == [] then [] else
      var n := |contents| - 1;
      GeminiOrphans(contents[..n], issued) + if contents[n].isModel then [] else PartOrphans(n, contents[n].parts, issued)
  }

  method CheckResponses(contents: seq<GeminiContent>, issued: set<string>) returns (issues: seq<Issue>, satisfied: set<string>)
    ensures issues == GeminiOrphans(contents, issued) && satisfied == GeminiAnswers(contents) * issued
  {
    hide PartOrphans, AnswerKeys;
    satisfied := {};
    issues := [];
    for i := 0 to |contents|
      invariant issues == GeminiOrphans(contents[..i], issued)
      invariant satisfied == GeminiAnswers(contents[..i]) * issued
    {
      assert contents[..i + 1][..i] == contents[..i];
      if !contents[i].isModel {
        issues := issues + PartOrphans(i, contents[i].parts, issued);
      }
      satisfied := satisfied + AnswerKeys(contents[i]) * issued;
    }
    assert contents[..|contents|] == contents;
  }

  method ValidateGemini(contents: seq<GeminiContent>) returns (issues: seq<Issue>)
    ensures Reports(issues, GeminiOrphans(contents, AllKeys(GeminiKeys(contents))), GeminiKeys(contents), GeminiAnswers(contents))
  {
    hide GeminiOrphans, GeminiAnswers, GeminiKeys, AllKeys;
    var keys := GeminiKeys(contents);
    var issued, order := CollectIssued(keys);
    var satisfied;
    issues, satisfied := CheckResponses(contents, issued.Keys);
    var last := Unsatisfied(keys, issued, order, satisfied);
    issues := issues + last;
    SatisfiedIssued(keys, GeminiAnswers(contents), satisfied, order);
  }
}
