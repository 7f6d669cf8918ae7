/** The message-building part of LLMService._call_anthropic_with_tools. */
module AnthropicBuilder {
  import opened Text
  import opened Messages

  datatype Block = TextBlock(text: string) | ToolUse(id: string, name: string, input: ToolInput) | ToolResult(toolUseId: string, content: string)

  datatype ApiRole = UserRole | AssistantRole

  datatype ApiMessage = ApiMessage(role: ApiRole, content: seq<Block>)

  predicate WellFormed(tc: ToolCall) {
    tc.id != "" && tc.name != ""
  }

  /** The ids of the calls a provider is told about. */
  ghost function Announced(ms: seq<Message>): set<string> {
    set m, tc | m in ms && tc in CallsOf(m) && WellFormed(tc) :: tc.id
  }

  /** The announced ids that a later tool result answers. */
  ghost function Settled(ms: seq<Message>): set<string> {
    if ms == [] then {} else
      var last := ms[|ms| - 1];
      Settled(ms[..|ms| - 1])
      + if last.Tool? && last.toolUseId in Announced(ms[..|ms| - 1]) then {last.toolUseId} else {}
  }

  const FILLER := TextBlock(ZERO_WIDTH_SPACE)

  function UserText(content: string): string {
    if Strip(content) != "" then Strip(content) else ZERO_WIDTH_SPACE
  }

  /** The tool_use blocks of the well-formed calls whose id is in keep. */
  ghost function Uses(calls: seq<ToolCall>, keep: set<string>): seq<Block> {
    if calls == [] then [] else
      var last := calls[|calls| - 1];
      Uses(calls[..|calls| - 1], keep)
      + if WellFormed(last) && last.id in keep then [ToolUse(last.id, last.name, last.input)] else []
  }

  ghost function Blocks(content: string, calls: seq<ToolCall>, keep: set<string>): seq<Block> {
    (if content != "" then [TextBlock(content)] else []) + Uses(calls, keep)
  }

  function OrFiller(blocks: seq<Block>): seq<Block> {
    if blocks == [] then [FILLER] else blocks
  }

  /** What one message becomes, when `announced` ids precede it and the calls with ids in `keep` are kept. */
  ghost function TranslateOne(m: Message, announced: set<string>, keep: set<string>): seq<ApiMessage> {
    match m
    case User(content) => [ApiMessage(UserRole, [TextBlock(UserText(content))])]
    case Assistant(content, calls) => [ApiMessage(AssistantRole, OrFiller(Blocks(content, calls, keep)))]
    case Tool(content, id) => if id in announced then [ApiMessage(UserRole, [ToolResult(id, content)])] else []
  }

  ghost function Translate(ms: seq<Message>, keep: set<string>): seq<ApiMessage> {
    if ms == [] then [] else
      var n := |ms| - 1;
      Translate(ms[..n], keep) + TranslateOne(ms[n], Announced(ms[..n]), keep)
  }

  function EndingWithUser(api: seq<ApiMessage>): seq<ApiMessage> {
    if api != [] && api[|api| - 1].role == AssistantRole then api + [ApiMessage(UserRole, [FILLER])] else api
  }

  /** The reference form: each message on its own, with exactly the settled calls kept, and a user turn at the end. */
  ghost function Built(ms: seq<Message>): seq<ApiMessage> {
    EndingWithUser(Translate(ms, Settled(ms)))
  }

  // ----- The two-pass form of the source -----

  function WithoutUses(blocks: seq<Block>, dangling: set<string>): seq<Block> {
    if blocks == [] then [] else
      var last := blocks[|blocks| - 1];
      WithoutUses(blocks[..|blocks| - 1], dangling) + if last.ToolUse? && last.id in dangling then [] else [last]
  }

  function StripMessage(am: ApiMessage, dangling: set<string>): ApiMessage {
    if am.role == AssistantRole then am.(content := OrFiller(WithoutUses(am.content, dangling))) else am
  }

  ghost function StripAll(api: seq<ApiMessage>, dangling: set<string>): (r: seq<ApiMessage>)
    ensures |r| == |api|
  {
    seq(|api|, i requires 0 <= i < |api| => StripMessage(api[i], dangling))
  }

  /** The ids of the calls of one message that a provider is told about. */
  ghost function TurnCallIds(calls: seq<ToolCall>): set<string> {
    set tc | tc in calls && WellFormed(tc) :: tc.id
  }

  lemma NoTurnCalls()
    ensures TurnCallIds([]) == {}
  {
  }

  lemma NextCall(calls: seq<ToolCall>, k: nat, keep: set<string>)
    requires k < |calls|
    ensures var tc := calls[k];
      Uses(calls[..k + 1], keep)
      == Uses(calls[..k], keep) + if WellFormed(tc) && tc.id in keep then [ToolUse(tc.id, tc.name, tc.input)] else []
    ensures TurnCallIds(calls[..k + 1]) == TurnCallIds(calls[..k]) + if WellFormed(calls[k]) then {calls[k].id} else {}
  {
    assert calls[..k + 1] == calls[..k] + [calls[k]] && calls[..k + 1][..k] == calls[..k];
    assert forall x :: x in calls[..k + 1] <==> x in calls[..k] || x == calls[k];
  }

  method EmitBlocks(content: string, calls: seq<ToolCall>, issued: set<string>, ghost keep: set<string>)
    returns (blocks: seq<Block>, issued': set<string>)
    requires forall tc :: tc in calls && WellFormed(tc) ==> tc.id in keep
    ensures blocks == OrFiller(Blocks(content, calls, keep))
    ensures issued' == issued + TurnCallIds(calls)
  {
    hide TurnCallIds;
    blocks := if content != "" then [TextBlock(content)] else [];
    ghost var text := blocks;
    issued' := issued;
    NoTurnCalls();
    for k := 0 to |calls|
      invariant blocks == text + Uses(calls[..k], keep)
      invariant issued' == issued + TurnCallIds(calls[..k])
    {
      hide Uses, TurnCallIds;
      var tc := calls[k];
      NextCall(calls, k, keep);
      if tc.id == "" || tc.name == "" { continue; }
      blocks := blocks + [ToolUse(tc.id, tc.name, tc.input)];
      issued' := issued' + {tc.id};
    }
    assert calls[..|calls|] == calls;
    if blocks == [] {
      blocks := [FILLER];
    }
  }

  lemma AnnouncedSnoc(ms: seq<Message>, m: Message)
    ensures Announced(ms + [m]) == Announced(ms) + TurnCallIds(CallsOf(m))
  {
    assert forall x :: x in ms + [m] <==> x in ms || x == m;
  }

  lemma {:induction false} SettledAnnounced(ms: seq<Message>)
    ensures Settled(ms) <= Announced(ms)
  {
    if ms != [] {
      var n := |ms| - 1;
      assert ms == ms[..n] + [ms[n]];
      SettledAnnounced(ms[..n]);
      AnnouncedSnoc(ms[..n], ms[n]);
    }
  }

  method EmitOne(m: Message, before: set<string>, ghost keep: set<string>)
    returns (turn: seq<ApiMessage>, issued: set<string>, answered: set<string>)
    requires "" !in before && forall tc :: tc in CallsOf(m) && WellFormed(tc) ==> tc.id in keep
    ensures turn == TranslateOne(m, before, keep)
    ensures issued == before + TurnCallIds(CallsOf(m))
    ensures answered == if m.Tool? && m.toolUseId in before then {m.toolUseId} else {}
  {
    turn, issued, answered := [], before, {};
    match m
    case User(content) =>
      turn := [ApiMessage(UserRole, [TextBlock(UserText(content))])];
    case Assistant(content, calls) =>
      var blocks;
      blocks, issued := EmitBlocks(content, calls, before, keep);
      turn := [ApiMessage(AssistantRole, blocks)];
    case Tool(content, id) =>
      if id != "" && id in before {
        answered := {id};
        turn := [ApiMessage(UserRole, [ToolResult(id, content)])];
      }
  }

  lemma TranslateNext(ms: seq<Message>, i: nat, keep: set<string>)
    requires i < |ms|
    ensures Translate(ms[..i + 1], keep) == Translate(ms[..i], keep) + TranslateOne(ms[i], Announced(ms[..i]), keep)
    ensures Announced(ms[..i + 1]) == Announced(ms[..i]) + TurnCallIds(CallsOf(ms[i]))
    ensures Settled(ms[..i + 1])
         == Settled(ms[..i]) + if ms[i].Tool? && ms[i].toolUseId in Announced(ms[..i]) then {ms[i].toolUseId} else {}
  {
    hide TranslateOne;
    assert ms[..i + 1] == ms[..i] + [ms[i]] && ms[..i + 1][..i] == ms[..i];
    AnnouncedSnoc(ms[..i], ms[i]);
  }

  lemma AnnouncesOwnCalls(ms: seq<Message>, i: nat)
    requires i < |ms|
    ensures forall tc :: tc in CallsOf(ms[i]) && WellFormed(tc) ==> tc.id in Announced(ms)
  {
    assert ms[i] in ms;
  }

  /** First pass: every message is translated with all its well-formed calls. */
  method Emit(ms: seq<Message>) returns (api: seq<ApiMessage>, issued: set<string>, resolved: set<string>)
    ensures api == Translate(ms, Announced(ms))
    ensures issued == Announced(ms) && resolved == Settled(ms)
  {
    api, issued, resolved := [], {}, {};
    for i := 0 to |ms|
      invariant api == Translate(ms[..i], Announced(ms))
      invariant issued == Announced(ms[..i]) && resolved == Settled(ms[..i])
    {
      hide Translate, TranslateOne, Announced, Settled;
      TranslateNext(ms, i, Announced(ms));
      AnnouncesOwnCalls(ms, i);
      NoEmptyId(ms[..i]);
      var turn, answered;
      turn, issued, answered := EmitOne(ms[i], issued, Announced(ms));
      resolved := resolved + answered;
      api := api + turn;
    }
    assert ms[..|ms|] == ms;
  }

  lemma NoEmptyId(ms: seq<Message>)
    ensures "" !in Announced(ms)
  {
  }

  /** Second pass: the assistant messages are rewritten without the calls nobody answered. */
  method StripDangling(emitted: seq<ApiMessage>, dangling: set<string>) returns (api: seq<ApiMessage>)
    ensures api == StripAll(emitted, dangling)
  {
    api := emitted;
    for i := 0 to |api|
      invariant |api| == |emitted|
      invariant forall j :: 0 <= j < i ==> api[j] == StripMessage(emitted[j], dangling)
      invariant forall j :: i <= j < |api| ==> api[j] == emitted[j]
    {
      if api[i].role != AssistantRole { continue; }
      var kept := WithoutUses(api[i].content, dangling);
      if kept == [] {
        kept := [FILLER];
      }
      api := api[i := api[i].(content := kept)];
    }
  }

  method BuildMessages(ms: seq<Message>) returns (api: seq<ApiMessage>)
    ensures api == Built(ms)
  {
    hide TranslateOne, StripMessage;
    var issued, resolved;
    api, issued, resolved := Emit(ms);
    var dangling := issued - resolved;
    SettledAnnounced(ms);
    StripTranslate(ms, Announced(ms), dangling);
    assert Announced(ms) - dangling == Settled(ms);
    assert dangling == {} ==> Announced(ms) == Settled(ms);
    if dangling != {} {
      api := StripDangling(api, dangling);
    }
    if api != [] && api[|api| - 1].role == AssistantRole {
      api := api + [ApiMessage(UserRole, [FILLER])];
    }
  }

  lemma {:induction false} WithoutUsesConcat(a: seq<Block>, b: seq<Block>, d: set<string>)
    ensures WithoutUses(a + b, d) == WithoutUses(a, d) + WithoutUses(b, d)
  {
    hide TranslateOne, StripMessage;
    if b == [] {
      assert a + b == a;
    } else {
      assert (a + b)[..|a + b| - 1] == a + b[..|b| - 1];
      WithoutUsesConcat(a, b[..|b| - 1], d);
    }
  }

  lemma {:induction false} WithoutUsesOfUses(calls: seq<ToolCall>, keep: set<string>, d: set<string>)
    ensures WithoutUses(Uses(calls, keep), d) == Uses(calls, keep - d)
  {
    if calls != [] {
      var n := |calls| - 1;
      WithoutUsesOfUses(calls[..n], keep, d);
      var last := if WellFormed(calls[n]) && calls[n].id in keep then [ToolUse(calls[n].id, calls[n].name, calls[n].input)] else [];
      WithoutUsesConcat(Uses(calls[..n], keep), last, d);
    }
  }

  lemma StripTranslated(m: Message, announced: set<string>, keep: set<string>, d: set<string>)
    ensures StripAll(TranslateOne(m, announced, keep), d) == TranslateOne(m, announced, keep - d)
  {
    if m.Assistant? {
      var text := if m.content != "" then [TextBlock(m.content)] else [];
      WithoutUsesConcat(text, Uses(m.calls, keep), d);
      WithoutUsesOfUses(m.calls, keep, d);
      assert WithoutUses([FILLER], d) == [FILLER] && WithoutUses(text, d) == text;
    }
  }

  lemma StripAllConcat(a: seq<ApiMessage>, b: seq<ApiMessage>, d: set<string>)
    ensures StripAll(a + b, d) == StripAll(a, d) + StripAll(b, d)
  {
    hide StripMessage;
  }

  lemma {:induction false} StripTranslate(ms: seq<Message>, keep: set<string>, d: set<string>)
    ensures StripAll(Translate(ms, keep), d) == Translate(ms, keep - d)
  {
    hide TranslateOne, StripMessage, Announced;
    if ms != [] {
      hide StripAll;
      var n := |ms| - 1;
      StripTranslate(ms[..n], keep, d);
      StripTranslated(ms[n], Announced(ms[..n]), keep, d);
      StripAllConcat(Translate(ms[..n], keep), TranslateOne(ms[n], Announced(ms[..n]), keep), d);
    }
  }
}
