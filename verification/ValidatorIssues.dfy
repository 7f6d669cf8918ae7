/** Which issues the checks of scripts/validate_llm_messages.py report: for each of them, exactly when it is among them. */
module ValidatorIssues {
  import opened Prelude
  import opened Messages
  import opened AnthropicBuilder
  import opened ScriptBuilders
  import opened Validators

  // ----- The internal check -----

  /** x warns of a call that has no id, or else no name. */
  predicate MalformedCall(calls: seq<ToolCall>, x: Issue) {
    exists k :: 0 <= k < |calls| && (if calls[k].id == "" then x == Issue(false, x.index, MissingId(calls[k].name))
                                     else calls[k].name == "" && x == Issue(false, x.index, MissingName(calls[k].id)))
  }

  lemma {:induction false} CallIssuesAre(i: nat, calls: seq<ToolCall>, x: Issue)
    ensures x in CallIssues(i, calls) <==> x.index == i && MalformedCall(calls, x)
  {
    if calls != [] {
      var n := |calls| - 1;
      CallIssuesAre(i, calls[..n], x);
      assert forall k :: 0 <= k < n ==> calls[..n][k] == calls[k];
    }
  }

  lemma {:induction false} AllCallIssuesAre(ms: seq<Message>, x: Issue)
    ensures x in AllCallIssues(ms) <==> x.index < |ms| && MalformedCall(CallsOf(ms[x.index]), x)
  {
    hide CallIssues, MalformedCall;
    if ms != [] {
      AllCallIssuesAre(ms[..|ms| - 1], x);
      CallIssuesAre(|ms| - 1, CallsOf(ms[|ms| - 1]), x);
    }
  }

  /** x finds a result that has no id, or warns of one whose id nobody announced. */
  predicate BadResult(m: Message, issued: set<string>, x: Issue) {
    m.Tool? && if m.toolUseId == "" then x == Issue(true, x.index, NoToolUseId)
               else m.toolUseId !in issued && x == Issue(false, x.index, Orphan(m.toolUseId))
  }

  lemma {:induction false} ToolIssuesAre(ms: seq<Message>, issued: set<string>, x: Issue)
    ensures x in AllToolIssues(ms, issued) <==> x.index < |ms| && BadResult(ms[x.index], issued, x)
  {
    if ms != [] { ToolIssuesAre(ms[..|ms| - 1], issued, x); }
  }

  /** The issues of the internal check: calls without id or name, results without or with an unknown id, calls without a result. */
  lemma InternalIssues(raw: seq<Message>, issues: seq<Issue>, x: Issue)
    requires Reports(issues, AllCallIssues(raw) + AllToolIssues(raw, Announced(raw)), MessageKeys(raw), ResolvedIds(raw))
    ensures x in issues <==>
            x.index < |raw|
            && (MalformedCall(CallsOf(raw[x.index]), x) || BadResult(raw[x.index], Announced(raw), x)
                || UnansweredAt(MessageKeys(raw), ResolvedIds(raw), x))
  {
    hide AllCallIssues, AllToolIssues, MalformedCall, BadResult, Announced, ResolvedIds, MessageKeys, AllKeys;
    var front := AllCallIssues(raw) + AllToolIssues(raw, Announced(raw));
    ReportsAre(issues, front, MessageKeys(raw), ResolvedIds(raw));
    hide Reports;
    assert issues == front + issues[|front|..];
    AllCallIssuesAre(raw, x);
    ToolIssuesAre(raw, Announced(raw), x);
  }

  // ----- Anthropic -----

  lemma {:induction false} RoleIssuesAre(api: seq<ApiMessage>, n: nat, x: Issue)
    requires n <= |api|
    ensures x in RoleIssues(api, n) <==>
            0 < x.index < n && api[x.index - 1].role == api[x.index].role && x == Issue(true, x.index, SameRoleTwice)
  {
    if n > 0 { RoleIssuesAre(api, n - 1, x); }
  }

  lemma {:induction false} MissingResultsAre(i: nat, ids: seq<string>, results: set<string>, x: Issue)
    ensures x in MissingResults(i, ids, results) <==> exists id :: id in ids && id !in results && x == Issue(true, i, NotSatisfied(id))
  {
    if ids != [] {
      var n := |ids| - 1;
      MissingResultsAre(i, ids[..n], results, x);
      assert forall id :: id in ids <==> id in ids[..n] || id == ids[n];
    }
  }

  /** A tool_use block of the message has this id. */
  ghost predicate Uses1(am: ApiMessage, id: string) {
    id != "" && am.role == AssistantRole && exists b :: b in am.content && b.ToolUse? && b.id == id
  }

  ghost predicate Results1(am: ApiMessage, id: string) {
    exists b :: b in am.content && b.ToolResult? && b.toolUseId == id
  }

  /** x finds that the calls of an assistant message are not answered by the message behind it. */
  ghost predicate NotPaired(api: seq<ApiMessage>, i: nat, x: Issue)
    requires i < |api|
  {
    (exists id :: Uses1(api[i], id))
    && if i + 1 == |api| then x == Issue(true, i, NothingFollows)
       else if api[i + 1].role != UserRole then x == Issue(true, i + 1, NoUserFollows)
       else exists id :: Uses1(api[i], id) && !Results1(api[i + 1], id) && x == Issue(true, i, NotSatisfied(id))
  }

  lemma UsesListed(am: ApiMessage)
    ensures forall id :: Uses1(am, id) <==> am.role == AssistantRole && id in UseIdList(am.content)
  {
  }

  lemma ResultsListed(am: ApiMessage)
    ensures forall id :: Results1(am, id) <==> id in ResultIdSet(am.content)
  {
  }

  lemma PairingIssuesAre(api: seq<ApiMessage>, i: nat, x: Issue)
    requires i < |api|
    ensures x in PairingIssues(api, i) <==> NotPaired(api, i, x)
  {
    var ids := UseIdList(api[i].content);
    UsesListed(api[i]);
    hide Uses1, UseIdList;
    assert ids != [] ==> ids[0] in ids;
    if i + 1 < |api| {
      var results := ResultIdSet(api[i + 1].content);
      ResultsListed(api[i + 1]);
      hide Results1, ResultIdSet;
      MissingResultsAre(i, ids, results, x);
    }
  }

  lemma {:induction false} AllPairingIssuesAre(api: seq<ApiMessage>, n: nat, x: Issue)
    requires n <= |api|
    ensures x in AllPairingIssues(api, n) <==> exists i: nat :: i < n && NotPaired(api, i, x)
  {
    hide PairingIssues, NotPaired;
    if n > 0 {
      AllPairingIssuesAre(api, n - 1, x);
      PairingIssuesAre(api, n - 1, x);
    }
  }

  lemma {:induction false} OrphanBlocksAre(i: nat, blocks: seq<Block>, issued: set<string>, x: Issue)
    ensures x in OrphanBlocks(i, blocks, issued) <==>
            exists b :: b in blocks && b.ToolResult? && b.toolUseId != "" && b.toolUseId !in issued && x == Issue(false, i, Orphan(b.toolUseId))
  {
    if blocks != [] {
      var n := |blocks| - 1;
      OrphanBlocksAre(i, blocks[..n], issued, x);
      assert forall b :: b in blocks <==> b in blocks[..n] || b == blocks[n];
    }
  }

  lemma {:induction false} AllOrphansAre(api: seq<ApiMessage>, n: nat, issued: set<string>, x: Issue)
    requires n <= |api|
    ensures x in AllOrphans(api, n, issued) <==>
            x.index < n && api[x.index].role == UserRole
            && exists id :: Results1(api[x.index], id) && id != "" && id !in issued && x == Issue(false, x.index, Orphan(id))
  {
    hide OrphanBlocks;
    if n > 0 {
      AllOrphansAre(api, n - 1, issued, x);
      OrphanBlocksAre(n - 1, api[n - 1].content, issued, x);
    }
  }

  lemma {:induction false} AssistantIdsAre(api: seq<ApiMessage>, n: nat, id: string)
    requires n <= |api|
    ensures id in AssistantIds(api, n) <==> exists i :: 0 <= i < n && Uses1(api[i], id)
  {
    if n > 0 {
      AssistantIdsAre(api, n - 1, id);
      assert api[n - 1].role == AssistantRole ==> (id in UseIdList(api[n - 1].content) <==> Uses1(api[n - 1], id));
    }
  }

  ghost predicate NobodyUses(api: seq<ApiMessage>, id: string) {
    forall i :: 0 <= i < |api| ==> !Uses1(api[i], id)
  }

  /**
   * The issues of the Anthropic check: a first message that is not the user's, two of one role in a row, calls the next
   * message does not answer, and results of calls nobody sent.
   */
  lemma AnthropicIssuesAre(api: seq<ApiMessage>, x: Issue)
    ensures x in AnthropicIssues(api) <==>
            (api != [] && api[0].role != UserRole && x == Issue(true, 0, FirstNotUser))
            || (0 < x.index < |api| && api[x.index - 1].role == api[x.index].role && x == Issue(true, x.index, SameRoleTwice))
            || (exists i: nat :: i < |api| && NotPaired(api, i, x))
            || (x.index < |api| && api[x.index].role == UserRole
                && exists id :: Results1(api[x.index], id) && id != "" && NobodyUses(api, id) && x == Issue(false, x.index, Orphan(id)))
  {
    hide RoleIssues, AllPairingIssues, AllOrphans, NotPaired, Uses1, Results1, AssistantIds;
    RoleIssuesAre(api, |api|, x);
    AllPairingIssuesAre(api, |api|, x);
    AllOrphansAre(api, |api|, AssistantIds(api, |api|), x);
    forall id ensures id in AssistantIds(api, |api|) <==> exists i :: 0 <= i < |api| && Uses1(api[i], id) {
      AssistantIdsAre(api, |api|, id);
    }
  }

  // ----- OpenAI and Gemini -----

  /** The OpenAI check warns of exactly the tool turns whose id no assistant turn issued. */
  lemma {:induction false} OpenAiOrphansAre(api: seq<OpenAiMessage>, issued: set<string>, x: Issue)
    ensures x in OpenAiOrphans(api, issued) <==>
            x.index < |api| && api[x.index].ToolTurn? && api[x.index].toolCallId != "" && api[x.index].toolCallId !in issued
            && x == Issue(false, x.index, Orphan(api[x.index].toolCallId))
  {
    if api != [] { OpenAiOrphansAre(api[..|api| - 1], issued, x); }
  }

  lemma {:induction false} PartOrphansAre(i: nat, parts: seq<Part>, issued: set<string>, x: Issue)
    ensures x in PartOrphans(i, parts, issued) <==>
            exists p :: p in parts && OrphanResponse(p, issued, i, x)
  {
    if parts != [] {
      var n := |parts| - 1;
      PartOrphansAre(i, parts[..n], issued, x);
      assert parts[n] in parts && forall p :: p in parts <==> p in parts[..n] || p == parts[n];
      assert OrphanResponse(parts[n], issued, i, x)
        <==> AnswerKey(parts[n]) != "" && AnswerKey(parts[n]) !in issued && x == Issue(false, i, Orphan(AnswerKey(parts[n])));
    }
  }

  /** x warns of a response whose key, its id or else its name, no call issued. */
  predicate OrphanResponse(p: Part, issued: set<string>, i: nat, x: Issue) {
    p.FunctionResponse?
    && var key := if p.responseId != "" then p.responseId else p.responseName;
       key != "" && key !in issued && x == Issue(false, i, Orphan(key))
  }

  lemma OrphanPlace(p: Part, issued: set<string>, i: nat, x: Issue)
    requires OrphanResponse(p, issued, i, x)
    ensures x.index == i
  {
  }

  /** The Gemini check warns of exactly the user's responses whose key no call of the model has. */
  lemma {:induction false} GeminiOrphansAre(contents: seq<GeminiContent>, issued: set<string>, x: Issue)
    ensures x in GeminiOrphans(contents, issued) <==>
            x.index < |contents| && !contents[x.index].isModel
            && exists p :: p in contents[x.index].parts && OrphanResponse(p, issued, x.index, x)
  {
    hide PartOrphans, OrphanResponse;
    if contents != [] {
      var n := |contents| - 1;
      GeminiOrphansAre(contents[..n], issued, x);
      PartOrphansAre(n, contents[n].parts, issued, x);
      if x in PartOrphans(n, contents[n].parts, issued) {
        var p :| p in contents[n].parts && OrphanResponse(p, issued, n, x);
        OrphanPlace(p, issued, n, x);
      }
    }
  }
}
