/** The three request builders of scripts/validate_llm_messages.py, and who says what in the requests they build. */
module ScriptBuilders {
  import opened Prelude
  import opened Messages
  import opened AnthropicBuilder

  // ----- Anthropic -----

  ghost function AnthropicOne(m: Message, announced: set<string>): seq<ApiMessage> {
    match m
    case User(content) => [ApiMessage(UserRole, [TextBlock(content)])]
    case Assistant(content, calls) =>
      var blocks := Blocks(content, calls, CallIds(calls));
      [ApiMessage(AssistantRole, if blocks == [] then [TextBlock("")] else blocks)]
    case Tool(content, id) => if id in announced then [ApiMessage(UserRole, [ToolResult(id, content)])] else []
  }

  /** build_anthropic_messages of the script, which strips nothing and appends nothing. */
  ghost function AnthropicBuild(ms: seq<Message>): seq<ApiMessage> {
    if ms == [] then [] else
      var n := |ms| - 1;
      AnthropicBuild(ms[..n]) + AnthropicOne(ms[n], Announced(ms[..n]))
  }

  lemma OwnCallId(calls: seq<ToolCall>, k: nat)
    requires k < |calls|
    ensures calls[k].id != "" ==> calls[k].id in CallIds(calls)
  {
  }

  method BuildAnthropicBlocks(content: string, calls: seq<ToolCall>, issued: set<string>)
    returns (blocks: seq<Block>, issued': set<string>)
    ensures blocks == Blocks(content, calls, CallIds(calls)) && issued' == issued + TurnCallIds(calls)
  {
    hide TurnCallIds, CallIds;
    blocks, issued' := if content != "" then [TextBlock(content)] else [], issued;
    ghost var text := blocks;
    NoTurnCalls();
    for k := 0 to |calls|
      invariant blocks == text + Uses(calls[..k], CallIds(calls))
      invariant issued' == issued + TurnCallIds(calls[..k])
    {
      hide Uses;
      NextCall(calls, k, CallIds(calls));
      OwnCallId(calls, k);
      if calls[k].id == "" || calls[k].name == "" { continue; }
      blocks := blocks + [ToolUse(calls[k].id, calls[k].name, calls[k].input)];
      issued' := issued' + {calls[k].id};
    }
    assert calls[..|calls|] == calls;
  }

  method BuildAnthropicTurn(m: Message, issued: set<string>) returns (turn: seq<ApiMessage>, issued': set<string>)
    requires "" !in issued
    ensures turn == AnthropicOne(m, issued)
    ensures issued' == issued + TurnCallIds(CallsOf(m))
  {
    hide Blocks, CallIds;
    turn, issued' := [], issued;
    match m
    case User(content) => turn := [ApiMessage(UserRole, [TextBlock(content)])];
    case Assistant(content, calls) =>
      var blocks;
      blocks, issued' := BuildAnthropicBlocks(content, calls, issued);
      turn := [ApiMessage(AssistantRole, if blocks == [] then [TextBlock("")] else blocks)];
    case Tool(content, id) =>
      if id != "" && id in issued {
        turn := [ApiMessage(UserRole, [ToolResult(id, content)])];
      }
  }

  method BuildAnthropicMessages(ms: seq<Message>) returns (api: seq<ApiMessage>, issued: set<string>)
    ensures api == AnthropicBuild(ms) && issued == Announced(ms)
    ensures AnthropicSaid(api) == AnthropicTranscript(ms)
  {
    hide AnthropicOne, AnthropicSaid, AnthropicTranscript;
    AnthropicSaysHistory(ms);
    api, issued := [], {};
    for i := 0 to |ms|
      invariant api == AnthropicBuild(ms[..i]) && issued == Announced(ms[..i])
    {
      assert ms[..i + 1] == ms[..i] + [ms[i]] && ms[..i + 1][..i] == ms[..i];
      AnnouncedSnoc(ms[..i], ms[i]);
      NoEmptyId(ms[..i]);
      var turn;
      turn, issued := BuildAnthropicTurn(ms[i], issued);
      api := api + turn;
    }
    assert ms[..|ms|] == ms;
  }

  // ----- OpenAI -----

  datatype OpenAiMessage =
    | SystemTurn(content: string)
    | UserTurn(content: string)
    | AssistantTurn(text: Option<string>, calls: Option<seq<ToolCall>>)
    | ToolTurn(toolCallId: string, content: string)

  function NamedCalls(calls: seq<ToolCall>): (r: seq<ToolCall>)
    ensures forall tc :: tc in r <==> tc in calls && WellFormed(tc)
  {
    if calls == [] then [] else
      var last := calls[|calls| - 1];
      assert forall tc :: tc in calls <==> tc in calls[..|calls| - 1] || tc == last;
      NamedCalls(calls[..|calls| - 1]) + if WellFormed(last) then [last] else []
  }

  function OpenAiOne(m: Message): OpenAiMessage {
    match m
    case User(content) => UserTurn(content)
    case Assistant(content, calls) =>
      AssistantTurn(if content != "" || calls == [] then Some(content) else None,
                    if calls != [] then Some(NamedCalls(calls)) else None)
    case Tool(content, id) => ToolTurn(id, content)
  }

  function SystemIf(systemPrompt: string): seq<OpenAiMessage> {
    if systemPrompt != "" then [SystemTurn(systemPrompt)] else []
  }

  ghost function OpenAiBuild(systemPrompt: string, ms: seq<Message>): seq<OpenAiMessage> {
    SystemIf(systemPrompt) + seq(|ms|, i requires 0 <= i < |ms| => OpenAiOne(ms[i]))
  }

  method BuildOpenAiMessages(systemPrompt: string, ms: seq<Message>) returns (api: seq<OpenAiMessage>)
    ensures api == OpenAiBuild(systemPrompt, ms)
    ensures OpenAiSays(api, systemPrompt, ms)
  {
    hide OpenAiSays;
    OpenAiSaysHistory(systemPrompt, ms);
    api := [];
    if systemPrompt != "" {
      api := api + [SystemTurn(systemPrompt)];
    }
    for i := 0 to |ms|
      invariant api == OpenAiBuild(systemPrompt, ms[..i])
    {
      api := api + [OpenAiOne(ms[i])];
      assert api == OpenAiBuild(systemPrompt, ms[..i + 1]);
    }
    assert ms[..|ms|] == ms;
  }

  // ----- Gemini -----

  datatype Part =
    | TextPart(text: string)
    | FunctionCall(callId: string, callName: string, input: ToolInput)
    | FunctionResponse(responseId: string, responseName: string, result: string)

  datatype GeminiContent = GeminiContent(isModel: bool, parts: seq<Part>)

  function CallParts(calls: seq<ToolCall>): seq<Part> {
    if calls == [] then [] else
      var last := calls[|calls| - 1];
      CallParts(calls[..|calls| - 1]) + if last.name != "" then [FunctionCall(last.id, last.name, last.input)] else []
  }

  lemma {:induction false} CallPartsAre(calls: seq<ToolCall>)
    ensures forall p :: p in CallParts(calls) ==>
              p.FunctionCall? && exists tc :: tc in calls && tc.name != "" && p == FunctionCall(tc.id, tc.name, tc.input)
    ensures forall tc :: tc in calls && tc.name != "" ==> FunctionCall(tc.id, tc.name, tc.input) in CallParts(calls)
  {
    if calls != [] {
      var n := |calls| - 1;
      CallPartsAre(calls[..n]);
      assert forall tc :: tc in calls <==> tc in calls[..n] || tc == calls[n];
    }
  }

  /** The names recorded for the ids of the calls, the latest winning. */
  function RecordNames(names: map<string, string>, calls: seq<ToolCall>): (r: map<string, string>)
    ensures r.Keys == names.Keys + TurnCallIds(calls)
    ensures (forall id :: id in names ==> names[id] != "") ==> forall id :: id in r ==> r[id] != ""
  {
    if calls == [] then names else
      var last := calls[|calls| - 1];
      assert forall tc :: tc in calls <==> tc in calls[..|calls| - 1] || tc == last;
      var before := RecordNames(names, calls[..|calls| - 1]);
      if WellFormed(last) then before[last.id := last.name] else before
  }

  ghost function NamesAfter(ms: seq<Message>): map<string, string> {
    if ms == [] then map[] else RecordNames(NamesAfter(ms[..|ms| - 1]), CallsOf(ms[|ms| - 1]))
  }

  function GeminiOne(m: Message, names: map<string, string>): seq<GeminiContent> {
    match m
    case User(content) => [GeminiContent(false, [TextPart(content)])]
    case Assistant(content, calls) =>
      var parts := (if content != "" then [TextPart(content)] else []) + CallParts(calls);
      if parts != [] then [GeminiContent(true, parts)] else []
    case Tool(content, id) =>
      if id in names && names[id] != "" then [GeminiContent(false, [FunctionResponse(id, names[id], content)])] else []
  }

  ghost function GeminiBuild(ms: seq<Message>): seq<GeminiContent> {
    if ms == [] then [] else
      var n := |ms| - 1;
      GeminiBuild(ms[..n]) + GeminiOne(ms[n], NamesAfter(ms[..n]))
  }

  lemma NextParts(calls: seq<ToolCall>, k: nat, names: map<string, string>)
    requires k < |calls|
    ensures CallParts(calls[..k + 1])
         == CallParts(calls[..k]) + if calls[k].name != "" then [FunctionCall(calls[k].id, calls[k].name, calls[k].input)] else []
    ensures RecordNames(names, calls[..k + 1])
         == if WellFormed(calls[k]) then RecordNames(names, calls[..k])[calls[k].id := calls[k].name] else RecordNames(names, calls[..k])
  {
    assert calls[..k + 1][..k] == calls[..k];
  }

  method BuildGeminiParts(calls: seq<ToolCall>, names: map<string, string>) returns (parts: seq<Part>, names': map<string, string>)
    ensures parts == CallParts(calls) && names' == RecordNames(names, calls)
  {
    parts, names' := [], names;
    for k := 0 to |calls|
      invariant parts == CallParts(calls[..k]) && names' == RecordNames(names, calls[..k])
    {
      hide CallParts, RecordNames;
      NextParts(calls, k, names);
      if calls[k].name == "" { continue; }
      if calls[k].id != "" { names' := names'[calls[k].id := calls[k].name]; }
      parts := parts + [FunctionCall(calls[k].id, calls[k].name, calls[k].input)];
    }
    assert calls[..|calls|] == calls;
  }

  method BuildGeminiTurn(m: Message, names: map<string, string>) returns (turn: seq<GeminiContent>, names': map<string, string>)
    ensures turn == GeminiOne(m, names) && names' == RecordNames(names, CallsOf(m))
  {
    hide CallParts;
    turn, names' := [], names;
    match m
    case User(content) => turn := [GeminiContent(false, [TextPart(content)])];
    case Assistant(content, calls) =>
      var parts;
      parts, names' := BuildGeminiParts(calls, names);
      parts := (if content != "" then [TextPart(content)] else []) + parts;
      if parts != [] { turn := [GeminiContent(true, parts)]; }
    case Tool(content, id) =>
      var name := if id in names then names[id] else "";
      if name == "" { return; }
      turn := [GeminiContent(false, [FunctionResponse(id, name, content)])];
  }

  method BuildGeminiContents(ms: seq<Message>) returns (contents: seq<GeminiContent>)
    ensures contents == GeminiBuild(ms)
    ensures GeminiSaid(contents) == GeminiTranscript(ms) && |contents| == GeminiSpeeches(ms)
  {
    hide GeminiOne, RecordNames, GeminiSaid, GeminiTranscript, GeminiSpeeches;
    GeminiSaysHistory(ms);
    contents := [];
    var issued: map<string, string> := map[];
    for i := 0 to |ms|
      invariant contents == GeminiBuild(ms[..i]) && issued == NamesAfter(ms[..i])
    {
      assert ms[..i + 1][..i] == ms[..i];
      var turn;
      turn, issued := BuildGeminiTurn(ms[i], issued);
      contents := contents + turn;
    }
    assert ms[..|ms|] == ms;
  }

  // ----- Who says what -----

  datatype Speaker = ByUser | ByModel | BySystem

  /** One thing said in a request: a text, a call of the model, or the result of a call, with its name where one is sent. */
  datatype Utterance =
    | Saying(speaker: Speaker, text: string)
    | Calling(id: string, name: string, input: ToolInput)
    | Answering(resultId: string, resultName: string, result: string)

  /** The calls of a message that a provider hears of, first to last. */
  function Callings(calls: seq<ToolCall>, needId: bool): seq<Utterance> {
    if calls == [] then [] else
      (if calls[0].name == "" || (needId && calls[0].id == "") then [] else [Calling(calls[0].id, calls[0].name, calls[0].input)])
      + Callings(calls[1..], needId)
  }

  function TextIf(speaker: Speaker, text: string): seq<Utterance> {
    if text == "" then [] else [Saying(speaker, text)]
  }

  lemma {:induction false} CallingsSnoc(calls: seq<ToolCall>, tc: ToolCall, needId: bool)
    ensures Callings(calls + [tc], needId) == Callings(calls, needId)
            + if tc.name == "" || (needId && tc.id == "") then [] else [Calling(tc.id, tc.name, tc.input)]
  {
    if calls == [] {
      assert calls + [tc] == [tc] && [tc][1..] == [];
    } else {
      assert (calls + [tc])[1..] == calls[1..] + [tc];
      CallingsSnoc(calls[1..], tc, needId);
    }
  }

  // ----- Who says what to OpenAI -----

  function OpenAiCallings(calls: seq<ToolCall>): seq<Utterance> {
    seq(|calls|, i requires 0 <= i < |calls| => Calling(calls[i].id, calls[i].name, calls[i].input))
  }

  function OpenAiSaid(turn: OpenAiMessage): seq<Utterance> {
    match turn
    case SystemTurn(content) => [Saying(BySystem, content)]
    case UserTurn(content) => [Saying(ByUser, content)]
    case AssistantTurn(text, calls) =>
      (if text.Some? then [Saying(ByModel, text.value)] else []) + if calls.Some? then OpenAiCallings(calls.value) else []
    case ToolTurn(id, content) => [Answering(id, "", content)]
  }

  /** What one message of the history says to OpenAI; a model that said and called nothing says the empty text. */
  function OpenAiSpeech(m: Message): seq<Utterance> {
    match m
    case User(content) => [Saying(ByUser, content)]
    case Assistant(content, calls) => if content == "" && calls == [] then [Saying(ByModel, "")] else TextIf(ByModel, content) + Callings(calls, true)
    case Tool(content, id) => [Answering(id, "", content)]
  }

  lemma {:induction false} NamedCallings(calls: seq<ToolCall>)
    ensures OpenAiCallings(NamedCalls(calls)) == Callings(calls, true)
  {
    if calls != [] {
      var n := |calls| - 1;
      assert calls == calls[..n] + [calls[n]];
      NamedCallings(calls[..n]);
      CallingsSnoc(calls[..n], calls[n], true);
      if !WellFormed(calls[n]) { assert NamedCalls(calls) == NamedCalls(calls[..n]); }
    }
  }

  /** Behind the system prompt, if there is one, each message says in its own turn what it says in the history. */
  ghost predicate OpenAiSays(api: seq<OpenAiMessage>, systemPrompt: string, ms: seq<Message>) {
    var front := if systemPrompt == "" then [] else [SystemTurn(systemPrompt)];
    front <= api && |api| == |front| + |ms|
    && forall i :: 0 <= i < |ms| ==> OpenAiSaid(api[|front| + i]) == OpenAiSpeech(ms[i])
  }

  lemma OpenAiSaysHistory(systemPrompt: string, ms: seq<Message>)
    ensures OpenAiSays(OpenAiBuild(systemPrompt, ms), systemPrompt, ms)
  {
    hide NamedCalls, OpenAiCallings, Callings;
    forall i | 0 <= i < |ms| ensures OpenAiSaid(OpenAiOne(ms[i])) == OpenAiSpeech(ms[i]) {
      NamedCallings(CallsOf(ms[i]));
      NoNamedCalls();
    }
  }

  lemma NoNamedCalls()
    ensures OpenAiCallings([]) == [] && Callings([], true) == []
  {
  }

  // ----- Who says what to Anthropic -----

  function AnthropicSaidBy(role: ApiRole, blocks: seq<Block>): seq<Utterance> {
    if blocks == [] then [] else
      var n := |blocks| - 1;
      AnthropicSaidBy(role, blocks[..n])
      + match blocks[n]
        case TextBlock(text) => [Saying(if role == UserRole then ByUser else ByModel, text)]
        case ToolUse(id, name, input) => [Calling(id, name, input)]
        case ToolResult(id, content) => [Answering(id, "", content)]
  }

  ghost function AnthropicSaid(api: seq<ApiMessage>): seq<Utterance> {
    if api == [] then [] else AnthropicSaid(api[..|api| - 1]) + AnthropicSaidBy(api[|api| - 1].role, api[|api| - 1].content)
  }

  /** A call with this id, and with a name, stands in ms. */
  ghost predicate CallBefore(ms: seq<Message>, id: string) {
    id != "" && exists i, k :: 0 <= i < |ms| && 0 <= k < |CallsOf(ms[i])| && CallsOf(ms[i])[k].id == id && CallsOf(ms[i])[k].name != ""
  }

  /** What one message says to Anthropic behind the messages before it. */
  ghost function AnthropicSpeech(m: Message, before: seq<Message>): seq<Utterance> {
    match m
    case User(content) => [Saying(ByUser, content)]
    case Assistant(content, calls) =>
      if content == "" && Callings(calls, true) == [] then [Saying(ByModel, "")] else TextIf(ByModel, content) + Callings(calls, true)
    case Tool(content, id) => if CallBefore(before, id) then [Answering(id, "", content)] else []
  }

  ghost function AnthropicTranscript(ms: seq<Message>): seq<Utterance> {
    if ms == [] then [] else AnthropicTranscript(ms[..|ms| - 1]) + AnthropicSpeech(ms[|ms| - 1], ms[..|ms| - 1])
  }

  lemma CallBeforeIs(ms: seq<Message>, id: string)
    ensures CallBefore(ms, id) <==> id in Announced(ms)
  {
    if id in Announced(ms) {
      var m, tc :| m in ms && tc in CallsOf(m) && WellFormed(tc) && tc.id == id;
      var i :| 0 <= i < |ms| && ms[i] == m;
      var k :| 0 <= k < |CallsOf(m)| && CallsOf(m)[k] == tc;
      assert CallsOf(ms[i])[k].id == id;
    }
    if CallBefore(ms, id) {
      var i, k :| 0 <= i < |ms| && 0 <= k < |CallsOf(ms[i])| && CallsOf(ms[i])[k].id == id && CallsOf(ms[i])[k].name != "";
      assert ms[i] in ms && CallsOf(ms[i])[k] in CallsOf(ms[i]);
    }
  }

  lemma {:induction false} SaidByConcat(role: ApiRole, a: seq<Block>, b: seq<Block>)
    ensures AnthropicSaidBy(role, a + b) == AnthropicSaidBy(role, a) + AnthropicSaidBy(role, b)
  {
    if b == [] {
      assert a + b == a;
    } else {
      assert (a + b)[..|a + b| - 1] == a + b[..|b| - 1];
      SaidByConcat(role, a, b[..|b| - 1]);
    }
  }

  lemma {:induction false} SaidUses(calls: seq<ToolCall>, keep: set<string>)
    requires forall k :: 0 <= k < |calls| && WellFormed(calls[k]) ==> calls[k].id in keep
    ensures AnthropicSaidBy(AssistantRole, Uses(calls, keep)) == Callings(calls, true)
    ensures Uses(calls, keep) == [] <==> Callings(calls, true) == []
  {
    if calls != [] {
      var n := |calls| - 1;
      var front := Uses(calls[..n], keep);
      assert calls == calls[..n] + [calls[n]] && calls[..n + 1] == calls;
      SaidUses(calls[..n], keep);
      CallingsSnoc(calls[..n], calls[n], true);
      NextUses(calls, n, keep);
      hide Uses, Callings;
      if WellFormed(calls[n]) {
        var use := ToolUse(calls[n].id, calls[n].name, calls[n].input);
        assert (front + [use])[..|front|] == front;
      } else {
        assert front + [] == front;
      }
    }
  }

  lemma NextUses(calls: seq<ToolCall>, k: nat, keep: set<string>)
    requires k < |calls|
    ensures Uses(calls[..k + 1], keep) == Uses(calls[..k], keep)
            + if WellFormed(calls[k]) && calls[k].id in keep then [ToolUse(calls[k].id, calls[k].name, calls[k].input)] else []
  {
    assert calls[..k + 1][..k] == calls[..k];
  }

  lemma AnthropicOneSays(m: Message, before: seq<Message>)
    ensures AnthropicOne(m, Announced(before)) == []  ==> AnthropicSpeech(m, before) == []
    ensures |AnthropicOne(m, Announced(before))| <= 1
    ensures AnthropicOne(m, Announced(before)) != [] ==>
              var am := AnthropicOne(m, Announced(before))[0]; AnthropicSaidBy(am.role, am.content) == AnthropicSpeech(m, before)
  {
    hide Announced, Uses, Callings, CallBefore;
    SaidOneBlock();
    match m
    case User(content) =>
    case Assistant(content, calls) =>
      assert forall k :: 0 <= k < |calls| && WellFormed(calls[k]) ==> calls[k].id in CallIds(calls);
      SaidUses(calls, CallIds(calls));
      SaidByConcat(AssistantRole, if content != "" then [TextBlock(content)] else [], Uses(calls, CallIds(calls)));
    case Tool(content, id) => CallBeforeIs(before, id);
  }

  lemma SaidOneBlock()
    ensures forall role, text :: AnthropicSaidBy(role, [TextBlock(text)]) == [Saying(if role == UserRole then ByUser else ByModel, text)]
    ensures forall role, id, content :: AnthropicSaidBy(role, [ToolResult(id, content)]) == [Answering(id, "", content)]
    ensures forall role :: AnthropicSaidBy(role, []) == []
  {
    assert forall b: Block :: [b][..0] == [];
  }

  /** The script's Anthropic request says what the history says, in its order and by the same side. */
  lemma {:induction false} AnthropicSaysHistory(ms: seq<Message>)
    ensures AnthropicSaid(AnthropicBuild(ms)) == AnthropicTranscript(ms)
  {
    if ms == [] {
      assert AnthropicSaid([]) == [];
    } else {
      hide AnthropicOne, AnthropicSpeech, AnthropicSaidBy, AnthropicSaid, Announced;
      var n := |ms| - 1;
      AnthropicSaysHistory(ms[..n]);
      AnthropicOneSays(ms[n], ms[..n]);
      AnthropicSaidNext(AnthropicBuild(ms[..n]), AnthropicOne(ms[n], Announced(ms[..n])));
    }
  }

  lemma AnthropicSaidNext(front: seq<ApiMessage>, turn: seq<ApiMessage>)
    requires |turn| <= 1
    ensures AnthropicSaid(front + turn) == AnthropicSaid(front) + if turn == [] then [] else AnthropicSaidBy(turn[0].role, turn[0].content)
  {
    hide AnthropicSaidBy;
    if turn == [] {
      assert front + turn == front;
    } else {
      assert (front + turn)[..|front|] == front;
    }
  }

  // ----- Who says what to Gemini -----

  function GeminiSaidBy(isModel: bool, parts: seq<Part>): seq<Utterance> {
    if parts == [] then [] else
      var n := |parts| - 1;
      GeminiSaidBy(isModel, parts[..n])
      + match parts[n]
        case TextPart(text) => [Saying(if isModel then ByModel else ByUser, text)]
        case FunctionCall(id, name, input) => [Calling(id, name, input)]
        case FunctionResponse(id, name, result) => [Answering(id, name, result)]
  }

  ghost function GeminiSaid(contents: seq<GeminiContent>): seq<Utterance> {
    if contents == [] then [] else
      var n := |contents| - 1;
      GeminiSaid(contents[..n]) + GeminiSaidBy(contents[n].isModel, contents[n].parts)
  }

  /** The name of the last call with this id, if there is one. */
  ghost function LatestName(ms: seq<Message>, id: string): Option<string> {
    if ms == [] then None else
      var own := NameIn(CallsOf(ms[|ms| - 1]), id);
      if own.Some? then own else LatestName(ms[..|ms| - 1], id)
  }

  ghost function NameIn(calls: seq<ToolCall>, id: string): Option<string> {
    if calls == [] then None else
      var last := calls[|calls| - 1];
      if id != "" && last.id == id && last.name != "" then Some(last.name) else NameIn(calls[..|calls| - 1], id)
  }

  /** What one message says to Gemini behind the messages before it. */
  ghost function GeminiSpeech(m: Message, before: seq<Message>): seq<Utterance> {
    match m
    case User(content) => [Saying(ByUser, content)]
    case Assistant(content, calls) => TextIf(ByModel, content) + Callings(calls, false)
    case Tool(content, id) =>
      match LatestName(before, id)
      case Some(name) => [Answering(id, name, content)]
      case None => []
  }

  ghost function GeminiTranscript(ms: seq<Message>): seq<Utterance> {
    if ms == [] then [] else GeminiTranscript(ms[..|ms| - 1]) + GeminiSpeech(ms[|ms| - 1], ms[..|ms| - 1])
  }

  /** How many messages of the history say anything to Gemini. */
  ghost function GeminiSpeeches(ms: seq<Message>): nat {
    if ms == [] then 0 else
      GeminiSpeeches(ms[..|ms| - 1]) + if GeminiSpeech(ms[|ms| - 1], ms[..|ms| - 1]) == [] then 0 else 1
  }

  lemma {:induction false} RecordedName(names: map<string, string>, calls: seq<ToolCall>, id: string)
    ensures var own := NameIn(calls, id); var r := RecordNames(names, calls);
            if own.Some? then id in r && r[id] == own.value && own.value != "" else (id in r <==> id in names) && (id in r ==> r[id] == names[id])
  {
    if calls != [] { RecordedName(names, calls[..|calls| - 1], id); }
  }

  lemma {:induction false} LatestIsRecorded(ms: seq<Message>, id: string)
    ensures LatestName(ms, id) == if id in NamesAfter(ms) then Some(NamesAfter(ms)[id]) else None
    ensures id in NamesAfter(ms) ==> NamesAfter(ms)[id] != ""
  {
    hide RecordNames;
    if ms != [] {
      LatestIsRecorded(ms[..|ms| - 1], id);
      RecordedName(NamesAfter(ms[..|ms| - 1]), CallsOf(ms[|ms| - 1]), id);
    }
  }

  lemma {:induction false} GeminiSaidByConcat(isModel: bool, a: seq<Part>, b: seq<Part>)
    ensures GeminiSaidBy(isModel, a + b) == GeminiSaidBy(isModel, a) + GeminiSaidBy(isModel, b)
  {
    if b == [] {
      assert a + b == a;
    } else {
      assert (a + b)[..|a + b| - 1] == a + b[..|b| - 1];
      GeminiSaidByConcat(isModel, a, b[..|b| - 1]);
    }
  }

  lemma {:induction false} SaidCalls(calls: seq<ToolCall>)
    ensures GeminiSaidBy(true, CallParts(calls)) == Callings(calls, false)
    ensures CallParts(calls) == [] <==> Callings(calls, false) == []
  {
    if calls != [] {
      var n := |calls| - 1;
      var front := CallParts(calls[..n]);
      assert calls == calls[..n] + [calls[n]];
      SaidCalls(calls[..n]);
      CallingsSnoc(calls[..n], calls[n], false);
      hide Callings;
      if calls[n].name != "" {
        var part := FunctionCall(calls[n].id, calls[n].name, calls[n].input);
        assert (front + [part])[..|front|] == front;
      } else {
        assert front + [] == front;
      }
    }
  }

  lemma SaidOnePart()
    ensures forall isModel, text :: GeminiSaidBy(isModel, [TextPart(text)]) == [Saying(if isModel then ByModel else ByUser, text)]
    ensures forall id, name, result :: GeminiSaidBy(false, [FunctionResponse(id, name, result)]) == [Answering(id, name, result)]
    ensures forall isModel :: GeminiSaidBy(isModel, []) == []
  {
    assert forall p: Part :: [p][..0] == [];
  }

  lemma GeminiOneSays(m: Message, before: seq<Message>)
    ensures GeminiOne(m, NamesAfter(before)) == [] <==> GeminiSpeech(m, before) == []
    ensures |GeminiOne(m, NamesAfter(before))| <= 1
    ensures GeminiOne(m, NamesAfter(before)) != [] ==>
              var c := GeminiOne(m, NamesAfter(before))[0]; GeminiSaidBy(c.isModel, c.parts) == GeminiSpeech(m, before)
  {
    hide CallParts, Callings, NamesAfter, LatestName;
    SaidOnePart();
    match m
    case User(content) =>
    case Assistant(content, calls) =>
      SaidCalls(calls);
      GeminiSaidByConcat(true, if content != "" then [TextPart(content)] else [], CallParts(calls));
    case Tool(content, id) => LatestIsRecorded(before, id);
  }

  /**
   * The Gemini request says what the history says, in its order and by the same side, and in one content for each message
   * that says anything: every text, every call with a name, and every result whose call has been named before, under its
   * latest name.
   */
  lemma {:induction false} GeminiSaysHistory(ms: seq<Message>)
    ensures GeminiSaid(GeminiBuild(ms)) == GeminiTranscript(ms)
    ensures |GeminiBuild(ms)| == GeminiSpeeches(ms)
  {
    if ms == [] {
      assert GeminiSaid([]) == [];
    } else {
      hide GeminiOne, GeminiSpeech, GeminiSaidBy, GeminiSaid, NamesAfter;
      var n := |ms| - 1;
      GeminiSaysHistory(ms[..n]);
      GeminiOneSays(ms[n], ms[..n]);
      GeminiSaidNext(GeminiBuild(ms[..n]), GeminiOne(ms[n], NamesAfter(ms[..n])));
    }
  }

  lemma GeminiSaidNext(front: seq<GeminiContent>, turn: seq<GeminiContent>)
    requires |turn| <= 1
    ensures GeminiSaid(front + turn) == GeminiSaid(front) + if turn == [] then [] else GeminiSaidBy(turn[0].isModel, turn[0].parts)
  {
    hide GeminiSaidBy;
    if turn == [] {
      assert front + turn == front;
    } else {
      assert (front + turn)[..|front|] == front;
    }
  }
}
