/** The four checks agree: a history that passes for Anthropic passes elsewhere. */
module CrossProvider {
  import opened Messages
  import opened Repair
  import opened AnthropicBuilder
  import opened AnthropicSafety
  import opened ScriptBuilders
  import opened Validators

  // ----- What a clean Anthropic check says -----

  lemma {:induction false} PairingClean(api: seq<ApiMessage>, n: nat, i: nat)
    requires i < n <= |api| && Passed(AllPairingIssues(api, n))
    ensures Passed(PairingIssues(api, i))
  {
    hide PairingIssues;
    var a, b := AllPairingIssues(api, n - 1), PairingIssues(api, n - 1);
    assert forall x :: x in a || x in b ==> x in a + b;
    if i < n - 1 {
      PairingClean(api, n - 1, i);
    }
  }

  /** The pairing rule of the check: every use of an assistant message has its result in the message right behind it. */
  ghost predicate Paired(ms: seq<Message>) {
    var api := AnthropicBuild(ms);
    Passed(AllPairingIssues(api, |api|))
  }

  lemma PassedIsPaired(ms: seq<Message>)
    requires Passed(AnthropicIssues(AnthropicBuild(ms)))
    ensures Paired(ms)
  {
    hide RoleIssues, AllPairingIssues, AllOrphans, AssistantIds;
    var api := AnthropicBuild(ms);
    if api == [] {
      NothingToPair();
    } else {
      var first := if api[0].role != UserRole then [Issue(true, 0, FirstNotUser)] else [];
      var roles, pairs := RoleIssues(api, |api|), AllPairingIssues(api, |api|);
      var orphans := AllOrphans(api, |api|, AssistantIds(api, |api|));
      assert forall x :: x in pairs ==> x in first + roles + pairs + orphans;
    }
  }

  lemma NothingToPair()
    ensures AllPairingIssues([], 0) == []
  {
  }

  /** If the pairing rule holds, the ids an assistant message uses are answered in the message right behind it. */
  lemma CleanPairing(api: seq<ApiMessage>, i: nat, id: string)
    requires Passed(AllPairingIssues(api, |api|)) && i < |api| && api[i].role == AssistantRole && id in UseIdList(api[i].content)
    ensures i + 1 < |api| && id in ResultIdSet(api[i + 1].content)
  {
    hide PairingIssues, UseIdList;
    PairingClean(api, |api|, i);
    PairingOne(api, i, id);
  }

  lemma PairingOne(api: seq<ApiMessage>, i: nat, id: string)
    requires i < |api| && Passed(PairingIssues(api, i)) && api[i].role == AssistantRole && id in UseIdList(api[i].content)
    ensures i + 1 < |api| && id in ResultIdSet(api[i + 1].content)
  {
    ErrorsFail(PairingIssues(api, i));
  }

  lemma ErrorsFail(issues: seq<Issue>)
    requires forall x :: x in issues ==> x.isError
    ensures Passed(issues) <==> issues == []
  {
    if issues != [] {
      assert issues[0] in issues;
    }
  }

  // ----- What the script's Anthropic build contains -----

  lemma CallWithId(calls: seq<ToolCall>, id: string) returns (tc: ToolCall)
    requires id in TurnCallIds(calls)
    ensures tc in calls && WellFormed(tc) && tc.id == id && id in CallIds(calls)
  {
    tc :| tc in calls && WellFormed(tc) && tc.id == id;
  }

  lemma SpokenIds(content: string, calls: seq<ToolCall>)
    ensures UseIds(AnthropicOne(Assistant(content, calls), {})) == TurnCallIds(calls)
    ensures ResultIds(AnthropicOne(Assistant(content, calls), {})) == {}
  {
    hide TurnCallIds, CallIds, Uses;
    var turn := AnthropicOne(Assistant(content, calls), {});
    UsesIds(calls, CallIds(calls));
    forall id | id in TurnCallIds(calls) ensures id in UseIds(turn) {
      var tc := CallWithId(calls, id);
      assert ToolUse(tc.id, tc.name, tc.input) in Uses(calls, CallIds(calls));
      assert ToolUse(tc.id, tc.name, tc.input) in turn[0].content && turn[0] in turn;
    }
    forall id | id in UseIds(turn) ensures id in TurnCallIds(calls) {
      var use :| use in turn[0].content && use.ToolUse? && use.id == id;
      var tc :| tc in calls && WellFormed(tc) && use.id == tc.id;
      IdOfCall(calls, tc);
    }
  }

  lemma IdOfCall(calls: seq<ToolCall>, tc: ToolCall)
    requires tc in calls && WellFormed(tc)
    ensures tc.id in TurnCallIds(calls)
  {
  }

  lemma OneIds(m: Message, announced: set<string>)
    ensures UseIds(AnthropicOne(m, announced)) == TurnCallIds(CallsOf(m))
    ensures ResultIds(AnthropicOne(m, announced)) == if m.Tool? && m.toolUseId in announced then {m.toolUseId} else {}
    ensures forall am :: am in AnthropicOne(m, announced) && UseIds([am]) != {} ==> am.role == AssistantRole
  {
    hide TurnCallIds, CallIds, Uses;
    NoTurnCalls();
    if m.Assistant? {
      SpokenIds(m.content, m.calls);
    } else if m.Tool? && m.toolUseId in announced {
      var turn := AnthropicOne(m, announced);
      assert turn[0] in turn && turn[0].content[0] in turn[0].content;
    }
  }

  lemma {:induction false} BuildIds(ms: seq<Message>)
    ensures UseIds(AnthropicBuild(ms)) == Announced(ms)
    ensures ResultIds(AnthropicBuild(ms)) == Settled(ms)
    ensures forall am :: am in AnthropicBuild(ms) && UseIds([am]) != {} ==> am.role == AssistantRole
  {
    hide AnthropicOne, UseIds, ResultIds, Announced;
    if ms == [] {
      NothingAnnounced();
      NoApiIds();
    } else {
      var n := |ms| - 1;
      assert ms == ms[..n] + [ms[n]];
      BuildIds(ms[..n]);
      AnnouncedSnoc(ms[..n], ms[n]);
      OneIds(ms[n], Announced(ms[..n]));
      ApiIdsConcat(AnthropicBuild(ms[..n]), AnthropicOne(ms[n], Announced(ms[..n])));
    }
  }

  lemma NoApiIds()
    ensures UseIds([]) == {} && ResultIds([]) == {}
  {
  }

  /** The pairing rule of the Anthropic check alone means that every announced call has a result after it. */
  lemma CleanSettles(ms: seq<Message>)
    requires Paired(ms)
    ensures Announced(ms) == Settled(ms)
  {
    hide AllPairingIssues;
    var api := AnthropicBuild(ms);
    BuildIds(ms);
    SettledAnnounced(ms);
    forall id | id in Announced(ms) ensures id in Settled(ms) {
      assert id in UseIds(api);
      var i, b :| 0 <= i < |api| && b in api[i].content && b.ToolUse? && b.id == id;
      NoEmptyId(ms);
      assert api[i] in [api[i]] && id in UseIds([api[i]]);
      CleanPairing(api, i, id);
      assert api[i + 1] in api;
    }
  }

  // ----- The other formats -----

  lemma OpenAiAt(systemPrompt: string, ms: seq<Message>, i: nat)
    requires i < |ms|
    ensures var at := |SystemIf(systemPrompt)| + i; var api := OpenAiBuild(systemPrompt, ms);
            at < |api| && api[at] == OpenAiOne(ms[i])
            && OpenAiKeys(api)[at] == if ms[i].Assistant? && ms[i].calls != [] then IdsOf(NamedCalls(ms[i].calls)) else []
  {
  }

  lemma {:induction false} NamedIdsSame(calls: seq<ToolCall>)
    ensures IdsOf(NamedCalls(calls)) == NamedIds(calls)
  {
    if calls != [] {
      NamedIdsSame(calls[..|calls| - 1]);
    }
  }

  lemma OpenAiKeysSame(systemPrompt: string, ms: seq<Message>)
    ensures OpenAiKeys(OpenAiBuild(systemPrompt, ms)) == OpenAiKeys(SystemIf(systemPrompt)) + MessageKeys(ms)
  {
    hide OpenAiOne, NamedCalls, IdsOf, NamedIds;
    var s := |SystemIf(systemPrompt)|;
    var api := OpenAiBuild(systemPrompt, ms);
    forall i | 0 <= i < |ms| ensures OpenAiKeys(api)[s + i] == MessageKeys(ms)[i] {
      OpenAiAt(systemPrompt, ms, i);
      NamedIdsSame(CallsOf(ms[i]));
      NoNamedIds();
    }
  }

  lemma NoNamedIds()
    ensures NamedIds([]) == []
  {
  }

  lemma SystemHasNoKeys(systemPrompt: string)
    ensures AllKeys(OpenAiKeys(SystemIf(systemPrompt))) == {}
  {
  }

  /** The OpenAI format announces the same ids, and answers at least those that are answered in order. */
  lemma OpenAiSame(systemPrompt: string, ms: seq<Message>)
    ensures AllKeys(OpenAiKeys(OpenAiBuild(systemPrompt, ms))) == Announced(ms)
    ensures Settled(ms) <= OpenAiAnswers(OpenAiBuild(systemPrompt, ms))
  {
    hide AllKeys, Announced, OpenAiBuild;
    var api := OpenAiBuild(systemPrompt, ms);
    OpenAiKeysSame(systemPrompt, ms);
    AllKeysConcat(OpenAiKeys(SystemIf(systemPrompt)), MessageKeys(ms));
    SystemHasNoKeys(systemPrompt);
    MessageKeysAnnounced(ms);
    forall id | id in Settled(ms) ensures id in OpenAiAnswers(api) {
      var i := SettledHasResult(ms, id);
      OpenAiAt(systemPrompt, ms, i);
      assert api[|SystemIf(systemPrompt)| + i] in api;
    }
  }

  lemma {:induction false} SettledHasResult(ms: seq<Message>, id: string) returns (i: nat)
    requires id in Settled(ms)
    ensures i < |ms| && ms[i].Tool? && ms[i].toolUseId == id && id in Announced(ms[..i])
  {
    var n := |ms| - 1;
    if id in Settled(ms[..n]) {
      i := SettledHasResult(ms[..n], id);
      assert ms[..n][..i] == ms[..i];
    } else {
      i := n;
    }
  }

  /** The names under which Gemini knows the calls that have no id. */
  ghost function Nameless(ms: seq<Message>): set<string> {
    set m, tc | m in ms && tc in CallsOf(m) && tc.id == "" && tc.name != "" :: tc.name
  }

  lemma NamelessSnoc(ms: seq<Message>, m: Message)
    ensures Nameless(ms + [m]) == Nameless(ms) + set tc | tc in CallsOf(m) && tc.id == "" && tc.name != "" :: tc.name
  {
    assert forall x :: x in ms + [m] <==> x in ms || x == m;
  }

  lemma {:induction false} NamesAreAnnounced(ms: seq<Message>)
    ensures NamesAfter(ms).Keys == Announced(ms)
    ensures forall id :: id in NamesAfter(ms) ==> NamesAfter(ms)[id] != ""
  {
    if ms != [] {
      var n := |ms| - 1;
      assert ms == ms[..n] + [ms[n]];
      NamesAreAnnounced(ms[..n]);
      AnnouncedSnoc(ms[..n], ms[n]);
    }
  }

  lemma AllKeysConcat(a: seq<seq<string>>, b: seq<seq<string>>)
    ensures AllKeys(a + b) == AllKeys(a) + AllKeys(b)
  {
    assert forall x :: x in a + b <==> x in a || x in b;
  }

  /** The keys Gemini gives the calls of one message: their ids, or their names where there is no id. */
  ghost function CallKeys(calls: seq<ToolCall>): set<string> {
    (set tc | tc in calls && WellFormed(tc) :: tc.id) + set tc | tc in calls && tc.id == "" && tc.name != "" :: tc.name
  }

  lemma PartKeySound(content: string, calls: seq<ToolCall>, p: Part)
    requires p in (if content != "" then [TextPart(content)] else []) + CallParts(calls) && PartKey(p) != ""
    ensures PartKey(p) in CallKeys(calls)
  {
    CallPartsAre(calls);
    assert p in CallParts(calls);
    var tc :| tc in calls && tc.name != "" && p.callId == tc.id && p.callName == tc.name;
  }

  lemma ModelPartKey(parts: seq<Part>, p: Part)
    requires p in parts && PartKey(p) != ""
    ensures PartKey(p) in AllKeys(GeminiKeys([GeminiContent(true, parts)]))
  {
    hide PartKey;
    var keys := GeminiKeys([GeminiContent(true, parts)]);
    var j :| 0 <= j < |parts| && parts[j] == p;
    assert keys[0][j] == PartKey(p) && PartKey(p) in keys[0] && keys[0] in keys;
  }

  lemma GeminiTurnKeys(m: Message, names: map<string, string>)
    ensures AllKeys(GeminiKeys(GeminiOne(m, names))) == CallKeys(CallsOf(m))
  {
    hide CallParts, CallKeys, PartKey;
    var turn := GeminiOne(m, names);
    var keys := GeminiKeys(turn);
    if m.Assistant? {
      var parts := (if m.content != "" then [TextPart(m.content)] else []) + CallParts(m.calls);
      forall k | k in AllKeys(keys) ensures k in CallKeys(m.calls) {
        var j :| 0 <= j < |keys[0]| && keys[0][j] == k;
        assert parts[j] in parts;
        PartKeySound(m.content, m.calls, parts[j]);
      }
      forall k | k in CallKeys(m.calls) ensures k in AllKeys(keys) {
        var p := KeyHasPart(m.calls, k);
        assert p in parts && turn == [GeminiContent(true, parts)];
        ModelPartKey(parts, p);
      }
    } else {
      NoCallKeys();
      NotModelKeys(turn);
    }
  }

  lemma KeyHasPart(calls: seq<ToolCall>, k: string) returns (p: Part)
    requires k in CallKeys(calls)
    ensures p in CallParts(calls) && PartKey(p) == k != ""
  {
    var tc :| tc in calls && tc.name != "" && (if tc.id != "" then tc.id else tc.name) == k;
    p := FunctionCall(tc.id, tc.name, tc.input);
    CallPartsAre(calls);
  }

  lemma NoCallKeys()
    ensures CallKeys([]) == {}
  {
  }

  lemma NotModelKeys(contents: seq<GeminiContent>)
    requires forall c :: c in contents ==> !c.isModel
    ensures AllKeys(GeminiKeys(contents)) == {}
  {
    assert forall i :: 0 <= i < |contents| ==> contents[i] in contents;
  }

  lemma GeminiTurnAnswers(m: Message, names: map<string, string>)
    requires "" !in names && forall id :: id in names ==> names[id] != ""
    ensures |GeminiOne(m, names)| <= 1
    ensures (if GeminiOne(m, names) == [] then {} else AnswerKeys(GeminiOne(m, names)[0]))
            == if m.Tool? && m.toolUseId in names then {m.toolUseId} else {}
  {
    if m.Tool? && m.toolUseId in names {
      var c := GeminiOne(m, names)[0];
      assert c.parts[0] in c.parts && AnswerKey(c.parts[0]) == m.toolUseId;
    }
  }

  lemma GeminiAppend(front: seq<GeminiContent>, turn: seq<GeminiContent>)
    requires |turn| <= 1
    ensures AllKeys(GeminiKeys(front + turn)) == AllKeys(GeminiKeys(front)) + AllKeys(GeminiKeys(turn))
    ensures GeminiAnswers(front + turn) == GeminiAnswers(front) + if turn == [] then {} else AnswerKeys(turn[0])
  {
    hide AllKeys, AnswerKeys, PartKey;
    assert GeminiKeys(front + turn) == GeminiKeys(front) + GeminiKeys(turn);
    AllKeysConcat(GeminiKeys(front), GeminiKeys(turn));
    if turn == [] {
      assert front + turn == front;
    } else {
      assert (front + turn)[..|front|] == front;
    }
  }

  lemma CallKeysSplit(ms: seq<Message>, m: Message)
    ensures Announced(ms + [m]) + Nameless(ms + [m]) == Announced(ms) + Nameless(ms) + CallKeys(CallsOf(m))
  {
    AnnouncedSnoc(ms, m);
    NamelessSnoc(ms, m);
  }

  lemma {:induction false} GeminiSame(ms: seq<Message>)
    ensures AllKeys(GeminiKeys(GeminiBuild(ms))) == Announced(ms) + Nameless(ms)
    ensures GeminiAnswers(GeminiBuild(ms)) == Settled(ms)
  {
    hide GeminiOne, Announced, Nameless, AnswerKeys, AllKeys, CallKeys, GeminiKeys;
    if ms == [] {
      NothingAnnounced();
      NothingNameless();
    } else {
      var n := |ms| - 1;
      var names := NamesAfter(ms[..n]);
      assert ms == ms[..n] + [ms[n]];
      GeminiSame(ms[..n]);
      NamesAreAnnounced(ms[..n]);
      NoEmptyId(ms[..n]);
      CallKeysSplit(ms[..n], ms[n]);
      GeminiTurnKeys(ms[n], names);
      GeminiTurnAnswers(ms[n], names);
      GeminiAppend(GeminiBuild(ms[..n]), GeminiOne(ms[n], names));
    }
  }

  lemma NothingNameless()
    ensures Nameless([]) == {} && AllKeys([]) == {} && GeminiKeys([]) == []
  {
  }

  // ----- Agreement -----

  /** No error of the unanswered kind can be reported. */
  ghost predicate AllAnswered(keys: seq<seq<string>>, satisfied: set<string>) {
    forall x :: !UnansweredAt(keys, satisfied, x)
  }

  lemma AllAnsweredIff(keys: seq<seq<string>>, satisfied: set<string>)
    ensures AllAnswered(keys, satisfied) <==> AllKeys(keys) <= satisfied
  {
    if k :| k in AllKeys(keys) && k !in satisfied {
      var i :| 0 <= i < |keys| && k in keys[i];
      var last := LastIssue(keys, k, i);
      assert UnansweredAt(keys, satisfied, Issue(true, last, Unanswered(k)));
    }
  }

  lemma {:induction false} LastIssue(keys: seq<seq<string>>, k: string, i: nat) returns (last: nat)
    requires i < |keys| && k in keys[i]
    ensures IssuedLastAt(keys, k, last)
    decreases |keys| - i
  {
    if j :| i < j < |keys| && k in keys[j] {
      last := LastIssue(keys, k, j);
    } else {
      last := i;
    }
  }

  /**
   * Cross-provider agreement. If the Anthropic build of a history meets the pairing rule of its check, then the OpenAI build has no
   * unanswered call, the internal check reports no unanswered call, and the Gemini build has none exactly when
   * every call without an id bears a name that is the id of an answered call.
   */
  lemma ProvidersAgree(systemPrompt: string, ms: seq<Message>)
    requires Paired(ms)
    ensures AllAnswered(OpenAiKeys(OpenAiBuild(systemPrompt, ms)), OpenAiAnswers(OpenAiBuild(systemPrompt, ms)))
    ensures AllAnswered(MessageKeys(ms), ResolvedIds(ms))
    ensures AllAnswered(GeminiKeys(GeminiBuild(ms)), GeminiAnswers(GeminiBuild(ms))) <==> Nameless(ms) <= Settled(ms)
  {
    hide Paired, AllKeys, AllAnswered, Nameless;
    CleanSettles(ms);
    OpenAiSame(systemPrompt, ms);
    AllAnsweredIff(OpenAiKeys(OpenAiBuild(systemPrompt, ms)), OpenAiAnswers(OpenAiBuild(systemPrompt, ms)));
    MessageKeysAnnounced(ms);
    AllAnsweredIff(MessageKeys(ms), ResolvedIds(ms));
    SettledResolved(ms);
    GeminiSame(ms);
    AllAnsweredIff(GeminiKeys(GeminiBuild(ms)), GeminiAnswers(GeminiBuild(ms)));
  }

  /** A history that passes the Anthropic check and fails the Gemini check: a call without an id, which only Gemini is told about. */
  lemma GeminiFailsAlone(input: ToolInput)
    ensures var ms := [User("hi"), Assistant("", [ToolCall("", "t", input)])];
      Passed(AnthropicIssues(AnthropicBuild(ms))) && !AllAnswered(GeminiKeys(GeminiBuild(ms)), GeminiAnswers(GeminiBuild(ms)))
  {
    hide Paired, AllAnswered, AnthropicIssues, AnthropicBuild, GeminiKeys, GeminiBuild, GeminiAnswers;
    var tc := ToolCall("", "t", input);
    var hi, ask := User("hi"), Assistant("", [tc]);
    var ms := [hi, ask];
    AskBuilt(hi, ask, tc);
    AskPasses();
    PassedIsPaired(ms);
    ProvidersAgree("", ms);
    assert ask in ms && tc in CallsOf(ask) && "t" in Nameless(ms);
    SettledAnnounced(ms);
    assert Announced(ms) == {};
  }

  const ASKED := [ApiMessage(UserRole, [TextBlock("hi")]), ApiMessage(AssistantRole, [TextBlock("")])]

  lemma AskBuilt(hi: Message, ask: Message, tc: ToolCall)
    requires hi == User("hi") && tc.id == "" && ask == Assistant("", [tc])
    ensures AnthropicBuild([hi, ask]) == ASKED
  {
    var ms := [hi, ask];
    assert ms[..1] == [hi] && ms[..1][..0] == [] && [tc][..0] == [];
    assert AnthropicBuild(ms[..1]) == AnthropicBuild(ms[..1][..0]) + AnthropicOne(hi, Announced(ms[..1][..0]));
    assert Uses([tc], CallIds([tc])) == Uses([tc][..0], CallIds([tc])) == [];
    assert AnthropicOne(ask, Announced(ms[..1])) == [ApiMessage(AssistantRole, [TextBlock("")])];
  }

  lemma AskPasses()
    ensures Passed(AnthropicIssues(ASKED))
  {
    assert UseIdList(ASKED[0].content) == [] && UseIdList(ASKED[1].content) == [];
    assert AllPairingIssues(ASKED, 0) == [] && AllPairingIssues(ASKED, 1) == [] && AllPairingIssues(ASKED, 2) == [];
    assert RoleIssues(ASKED, 0) == [] && RoleIssues(ASKED, 1) == [] && RoleIssues(ASKED, 2) == [];
    var issued := AssistantIds(ASKED, 2);
    assert OrphanBlocks(0, ASKED[0].content, issued) == [];
    assert AllOrphans(ASKED, 0, issued) == [] && AllOrphans(ASKED, 1, issued) == [] && AllOrphans(ASKED, 2, issued) == [];
  }

  lemma SettledResolved(ms: seq<Message>)
    ensures Settled(ms) <= ResolvedIds(ms)
  {
    forall id | id in Settled(ms) ensures id in ResolvedIds(ms) {
      var i := SettledHasResult(ms, id);
      NoEmptyId(ms[..i]);
      assert ms[i] in ms;
    }
  }

  lemma {:induction false} WarningsOnly(api: seq<OpenAiMessage>, issued: set<string>)
    ensures Passed(OpenAiOrphans(api, issued))
  {
    if api != [] { WarningsOnly(api[..|api| - 1], issued); }
  }

  lemma {:induction false} PartWarningsOnly(i: nat, parts: seq<Part>, issued: set<string>)
    ensures Passed(PartOrphans(i, parts, issued))
  {
    if parts != [] { PartWarningsOnly(i, parts[..|parts| - 1], issued); }
  }

  lemma {:induction false} GeminiWarningsOnly(contents: seq<GeminiContent>, issued: set<string>)
    ensures Passed(GeminiOrphans(contents, issued))
  {
    if contents != [] {
      var n := |contents| - 1;
      GeminiWarningsOnly(contents[..n], issued);
      PartWarningsOnly(n, contents[n].parts, issued);
    }
  }

  lemma AnnouncedAreIssued(ms: seq<Message>)
    ensures Announced(ms) <= IssuedIds(ms)
  {
  }

  /** No repaired history makes the internal check report a call without a result. */
  lemma RepairedPasses(ms: seq<Message>)
    ensures AllAnswered(MessageKeys(Repaired(ms)), ResolvedIds(Repaired(ms)))
  {
    hide AllAnswered, MessageKeys, Repaired, Announced, IssuedIds, ResolvedIds;
    RepairAnswers(ms);
    AnnouncedAreIssued(Repaired(ms));
    MessageKeysAnnounced(Repaired(ms));
    AllAnsweredIff(MessageKeys(Repaired(ms)), ResolvedIds(Repaired(ms)));
  }

  /** The pre-flight check as the script runs it, with its verdict explained. */
  method Preflight(systemPrompt: string, ms: seq<Message>)
    returns (anthropic: seq<Issue>, openAi: seq<Issue>, gemini: seq<Issue>)
    ensures Passed(anthropic) ==> Passed(openAi)
    ensures Passed(anthropic) ==> (Passed(gemini) <==> Nameless(ms) <= Settled(ms))
  {
    hide AnthropicIssues, Nameless, UnansweredAt, Reports;
    var aApi, _ := BuildAnthropicMessages(ms);
    anthropic := ValidateAnthropic(aApi);
    var oApi := BuildOpenAiMessages(systemPrompt, ms);
    openAi := ValidateOpenAi(oApi);
    var gApi := BuildGeminiContents(ms);
    gemini := ValidateGemini(gApi);
    if Passed(anthropic) {
      PassedIsPaired(ms);
      ProvidersAgree(systemPrompt, ms);
    }
    WarningsOnly(oApi, AllKeys(OpenAiKeys(oApi)));
    TailVerdict(openAi, OpenAiOrphans(oApi, AllKeys(OpenAiKeys(oApi))), OpenAiKeys(oApi), OpenAiAnswers(oApi));
    GeminiWarningsOnly(gApi, AllKeys(GeminiKeys(gApi)));
    TailVerdict(gemini, GeminiOrphans(gApi, AllKeys(GeminiKeys(gApi))), GeminiKeys(gApi), GeminiAnswers(gApi));
  }

  lemma TailVerdict(issues: seq<Issue>, warnings: seq<Issue>, keys: seq<seq<string>>, satisfied: set<string>)
    requires Reports(issues, warnings, keys, satisfied) && Passed(warnings)
    ensures Passed(issues) <==> AllAnswered(keys, satisfied)
  {
    hide Reports;
    ReportsAre(issues, warnings, keys, satisfied);
    var tail := issues[|warnings|..];
    assert issues == warnings + tail;
    assert forall x :: x in issues <==> x in warnings || x in tail;
    if x :| UnansweredAt(keys, satisfied, x) {
      assert x in tail && x.isError;
    }
  }
}
