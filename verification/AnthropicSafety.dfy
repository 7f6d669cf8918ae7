/** What the Anthropic builder promises the API about its output, for every message list. */
module AnthropicSafety {
  import opened Text
  import opened Messages
  import opened Repair
  import opened AnthropicBuilder

  ghost function UseIds(api: seq<ApiMessage>): set<string> {
    set am, b | am in api && b in am.content && b.ToolUse? :: b.id
  }

  ghost function ResultIds(api: seq<ApiMessage>): set<string> {
    set am, b | am in api && b in am.content && b.ToolResult? :: b.toolUseId
  }

  lemma ApiIdsConcat(a: seq<ApiMessage>, b: seq<ApiMessage>)
    ensures UseIds(a + b) == UseIds(a) + UseIds(b)
    ensures ResultIds(a + b) == ResultIds(a) + ResultIds(b)
  {
    assert forall x :: x in a + b <==> x in a || x in b;
  }

  lemma {:induction false} UsesIds(calls: seq<ToolCall>, keep: set<string>)
    ensures forall b :: b in Uses(calls, keep) ==> b.ToolUse? && exists tc :: tc in calls && WellFormed(tc) && tc.id in keep && b.id == tc.id
    ensures forall tc :: tc in calls && WellFormed(tc) && tc.id in keep ==> ToolUse(tc.id, tc.name, tc.input) in Uses(calls, keep)
  {
    if calls != [] {
      var n := |calls| - 1;
      assert calls == calls[..n] + [calls[n]];
      UsesIds(calls[..n], keep);
    }
  }

  lemma TurnIds(m: Message, announced: set<string>, keep: set<string>)
    ensures UseIds(TranslateOne(m, announced, keep)) == TurnCallIds(CallsOf(m)) * keep
    ensures ResultIds(TranslateOne(m, announced, keep)) == if m.Tool? && m.toolUseId in announced then {m.toolUseId} else {}
  {
    hide UserText;
    var turn := TranslateOne(m, announced, keep);
    match m
    case User(content) =>
    case Tool(content, id) =>
      if id in announced {
        assert turn[0] in turn && turn[0].content[0] in turn[0].content;
      }
    case Assistant(content, calls) =>
      UsesIds(calls, keep);
      var blocks := OrFiller(Blocks(content, calls, keep));
      assert turn == [ApiMessage(AssistantRole, blocks)];
      forall id | id in TurnCallIds(CallsOf(m)) * keep ensures id in UseIds(turn) {
        var tc :| tc in calls && WellFormed(tc) && tc.id == id;
        assert ToolUse(tc.id, tc.name, tc.input) in Uses(calls, keep);
        assert ToolUse(tc.id, tc.name, tc.input) in blocks;
        assert turn[0] in turn;
      }
  }

  lemma {:induction false} TranslatedIds(ms: seq<Message>, keep: set<string>)
    ensures UseIds(Translate(ms, keep)) == Announced(ms) * keep
    ensures ResultIds(Translate(ms, keep)) == Settled(ms)
  {
    if ms != [] {
      hide TranslateOne, UseIds, ResultIds;
      var n := |ms| - 1;
      assert ms == ms[..n] + [ms[n]];
      TranslatedIds(ms[..n], keep);
      AnnouncedSnoc(ms[..n], ms[n]);
      TurnIds(ms[n], Announced(ms[..n]), keep);
      ApiIdsConcat(Translate(ms[..n], keep), TranslateOne(ms[n], Announced(ms[..n]), keep));
    }
  }

  /** The surviving calls are exactly the answered ones, and so are the surviving results. */
  lemma BuiltIds(ms: seq<Message>)
    ensures UseIds(Built(ms)) == Settled(ms) && ResultIds(Built(ms)) == Settled(ms)
  {
    hide Translate, Settled, Announced, UseIds, ResultIds;
    var api := Translate(ms, Settled(ms));
    SettledAnnounced(ms);
    TranslatedIds(ms, Settled(ms));
    ApiIdsConcat(api, [ApiMessage(UserRole, [FILLER])]);
    FillerIds();
  }

  lemma FillerIds()
    ensures UseIds([ApiMessage(UserRole, [FILLER])]) == {} && ResultIds([ApiMessage(UserRole, [FILLER])]) == {}
  {
  }

  /** Every result follows a call of its id. */
  ghost predicate ResultsFollowUses(api: seq<ApiMessage>) {
    forall i, b :: 0 <= i < |api| && b in api[i].content && b.ToolResult? ==> b.toolUseId in UseIds(api[..i])
  }

  lemma {:induction false} TranslatedOrder(ms: seq<Message>, keep: set<string>)
    requires Settled(ms) <= keep
    ensures ResultsFollowUses(Translate(ms, keep))
  {
    if ms != [] {
      var n := |ms| - 1;
      var front, turn := Translate(ms[..n], keep), TranslateOne(ms[n], Announced(ms[..n]), keep);
      TranslatedOrder(ms[..n], keep);
      TranslatedIds(ms[..n], keep);
      TurnResults(ms[n], Announced(ms[..n]), keep);
      var api := front + turn;
      forall i, b | 0 <= i < |api| && b in api[i].content && b.ToolResult? ensures b.toolUseId in UseIds(api[..i]) {
        if i < |front| {
          assert api[..i] == front[..i];
        } else {
          assert api[i] in turn && i == |front| && api[..i] == front;
        }
      }
    }
  }

  lemma TurnResults(m: Message, announced: set<string>, keep: set<string>)
    ensures |TranslateOne(m, announced, keep)| <= 1
    ensures forall am, b :: am in TranslateOne(m, announced, keep) && b in am.content && b.ToolResult? ==>
              m.Tool? && b.toolUseId == m.toolUseId && m.toolUseId in announced
  {
    hide UserText;
    if m.Assistant? {
      UsesIds(m.calls, keep);
    }
  }

  /** For every message list, each tool_result of the built request follows a surviving tool_use of its id. */
  lemma BuiltResultsFollowUses(ms: seq<Message>)
    ensures ResultsFollowUses(Built(ms))
  {
    var api := Translate(ms, Settled(ms));
    TranslatedOrder(ms, Settled(ms));
    forall i, b | 0 <= i < |Built(ms)| && b in Built(ms)[i].content && b.ToolResult?
      ensures b.toolUseId in UseIds(Built(ms)[..i])
    {
      assert i < |api| && Built(ms)[..i] == api[..i];
    }
  }

  /** No message is without content and no text block is empty. */
  ghost predicate NonEmpty(api: seq<ApiMessage>) {
    forall am :: am in api ==> am.content != [] && forall b :: b in am.content && b.TextBlock? ==> b.text != ""
  }

  lemma TurnNonEmpty(m: Message, announced: set<string>, keep: set<string>)
    ensures NonEmpty(TranslateOne(m, announced, keep))
  {
    if m.Assistant? {
      UsesIds(m.calls, keep);
    }
  }

  lemma {:induction false} TranslatedNonEmpty(ms: seq<Message>, keep: set<string>)
    ensures NonEmpty(Translate(ms, keep))
  {
    if ms != [] {
      hide TranslateOne;
      var n := |ms| - 1;
      TranslatedNonEmpty(ms[..n], keep);
      TurnNonEmpty(ms[n], Announced(ms[..n]), keep);
      assert forall x :: x in Translate(ms, keep) ==> x in Translate(ms[..n], keep) || x in TranslateOne(ms[n], Announced(ms[..n]), keep);
    }
  }

  lemma BuiltShape(ms: seq<Message>)
    ensures NonEmpty(Built(ms))
    ensures Built(ms) != [] ==> Built(ms)[|Built(ms)| - 1].role == UserRole
  {
    TranslatedNonEmpty(ms, Settled(ms));
  }

  /** How many messages of the history the request has: all but the results of calls nobody announced before them. */
  ghost function Sent(ms: seq<Message>): nat {
    if ms == [] then 0 else
      var last := ms[|ms| - 1];
      Sent(ms[..|ms| - 1]) + if last.Tool? && last.toolUseId !in Announced(ms[..|ms| - 1]) then 0 else 1
  }

  /** A filler stands for a message that has nothing else, or is a text the model itself wrote. */
  ghost predicate FillerAlone(am: ApiMessage, ms: seq<Message>) {
    FILLER in am.content ==> |am.content| == 1 || (exists calls :: Assistant(ZERO_WIDTH_SPACE, calls) in ms)
  }

  lemma TurnFillers(m: Message, announced: set<string>, keep: set<string>)
    ensures |TranslateOne(m, announced, keep)| == if m.Tool? && m.toolUseId !in announced then 0 else 1
    ensures forall am :: am in TranslateOne(m, announced, keep) ==> FillerAlone(am, [m])
  {
    hide UserText;
    if m.Assistant? {
      UsesIds(m.calls, keep);
      if m.content == ZERO_WIDTH_SPACE {
        assert Assistant(ZERO_WIDTH_SPACE, m.calls) in [m];
      }
    }
  }

  lemma {:induction false} TranslatedFillers(ms: seq<Message>, keep: set<string>)
    ensures |Translate(ms, keep)| == Sent(ms)
    ensures forall am :: am in Translate(ms, keep) ==> FillerAlone(am, ms)
  {
    if ms != [] {
      hide TranslateOne, Announced;
      var n := |ms| - 1;
      TranslatedFillers(ms[..n], keep);
      TurnFillers(ms[n], Announced(ms[..n]), keep);
      forall am | am in Translate(ms, keep) ensures FillerAlone(am, ms) {
        assert am in Translate(ms[..n], keep) || am in TranslateOne(ms[n], Announced(ms[..n]), keep);
        assert forall m :: m in ms[..n] || m in [ms[n]] ==> m in ms;
      }
    }
  }

  /** The request has one message for each that is sent, and one more if that is needed to end with the user; fillers fill nothing else. */
  lemma BuiltFillers(ms: seq<Message>)
    ensures Sent(ms) <= |Built(ms)| <= Sent(ms) + 1
    ensures |Built(ms)| == Sent(ms) + 1 ==> Built(ms)[Sent(ms)] == ApiMessage(UserRole, [FILLER])
                                            && Sent(ms) > 0 && Built(ms)[Sent(ms) - 1].role == AssistantRole
    ensures forall am :: am in Built(ms) ==> FillerAlone(am, ms)
  {
    hide Translate, Settled, Sent;
    TranslatedFillers(ms, Settled(ms));
  }

  // ----- What is said, in order -----

  /** A text block, unless there is nothing to say or it is only the filler. */
  function Words(text: string): seq<Block> {
    if text == "" || text == ZERO_WIDTH_SPACE then [] else [TextBlock(text)]
  }

  /** The answered calls of one message, first to last. */
  ghost function AnsweredCalls(calls: seq<ToolCall>, answered: set<string>): seq<Block> {
    if calls == [] then [] else
      (if WellFormed(calls[0]) && calls[0].id in answered then [ToolUse(calls[0].id, calls[0].name, calls[0].input)] else [])
      + AnsweredCalls(calls[1..], answered)
  }

  function By(role: ApiRole, blocks: seq<Block>): (r: seq<(ApiRole, Block)>)
    ensures |r| == |blocks|
  {
    seq(|blocks|, i requires 0 <= i < |blocks| => (role, blocks[i]))
  }

  /** Who says what in one message: its text, its answered calls in order, or its result if the call came before. */
  ghost function Speech(m: Message, announced: set<string>, answered: set<string>): seq<(ApiRole, Block)> {
    match m
    case User(content) => By(UserRole, Words(Strip(content)))
    case Assistant(content, calls) => By(AssistantRole, Words(content) + AnsweredCalls(calls, answered))
    case Tool(content, id) => if id in announced then [(UserRole, ToolResult(id, content))] else []
  }

  /** Who says what in a history, message by message. */
  ghost function Transcript(ms: seq<Message>, answered: set<string>): seq<(ApiRole, Block)> {
    if ms == [] then [] else
      var n := |ms| - 1;
      Transcript(ms[..n], answered) + Speech(ms[n], Announced(ms[..n]), answered)
  }

  function WithoutFiller(blocks: seq<Block>): seq<Block> {
    if blocks == [] then [] else
      var n := |blocks| - 1;
      WithoutFiller(blocks[..n]) + if blocks[n] == FILLER then [] else [blocks[n]]
  }

  /** Who says what in a request, fillers aside. */
  ghost function Said(api: seq<ApiMessage>): seq<(ApiRole, Block)> {
    if api == [] then [] else
      var n := |api| - 1;
      Said(api[..n]) + By(api[n].role, WithoutFiller(api[n].content))
  }

  lemma {:induction false} SaidConcat(a: seq<ApiMessage>, b: seq<ApiMessage>)
    ensures Said(a + b) == Said(a) + Said(b)
  {
    hide WithoutFiller;
    if b == [] {
      assert a + b == a;
    } else {
      assert (a + b)[..|a + b| - 1] == a + b[..|b| - 1];
      SaidConcat(a, b[..|b| - 1]);
    }
  }

  lemma {:induction false} WithoutFillerConcat(a: seq<Block>, b: seq<Block>)
    ensures WithoutFiller(a + b) == WithoutFiller(a) + WithoutFiller(b)
  {
    if b == [] {
      assert a + b == a;
    } else {
      assert (a + b)[..|a + b| - 1] == a + b[..|b| - 1];
      WithoutFillerConcat(a, b[..|b| - 1]);
    }
  }

  lemma {:induction false} AnsweredCallsSnoc(calls: seq<ToolCall>, tc: ToolCall, answered: set<string>)
    ensures AnsweredCalls(calls + [tc], answered) == AnsweredCalls(calls, answered)
              + if WellFormed(tc) && tc.id in answered then [ToolUse(tc.id, tc.name, tc.input)] else []
  {
    if calls == [] {
      assert ([tc] + [])[1..] == [] && calls + [tc] == [tc];
    } else {
      assert (calls + [tc])[1..] == calls[1..] + [tc];
      AnsweredCallsSnoc(calls[1..], tc, answered);
    }
  }

  lemma {:induction false} UsesAreAnswered(calls: seq<ToolCall>, answered: set<string>)
    ensures WithoutFiller(Uses(calls, answered)) == Uses(calls, answered) == AnsweredCalls(calls, answered)
  {
    if calls != [] {
      var n := |calls| - 1;
      assert calls == calls[..n] + [calls[n]];
      UsesAreAnswered(calls[..n], answered);
      AnsweredCallsSnoc(calls[..n], calls[n], answered);
      hide AnsweredCalls;
      var last := if WellFormed(calls[n]) && calls[n].id in answered then [ToolUse(calls[n].id, calls[n].name, calls[n].input)] else [];
      WithoutFillerConcat(Uses(calls[..n], answered), last);
    }
  }

  lemma SaidTurn(m: Message, announced: set<string>, keep: set<string>)
    ensures Said(TranslateOne(m, announced, keep)) == Speech(m, announced, keep)
  {
    hide Strip, Uses, AnsweredCalls, WithoutFiller, Said;
    SaidOne();
    match m
    case User(content) => WithoutFillerOne(TextBlock(UserText(content)));
    case Assistant(content, calls) =>
      UsesAreAnswered(calls, keep);
      var text := if content != "" then [TextBlock(content)] else [];
      WithoutFillerConcat(text, Uses(calls, keep));
      WithoutFillerOne(TextBlock(content));
      WithoutFillerOne(FILLER);
    case Tool(content, id) => WithoutFillerOne(ToolResult(id, content));
  }

  lemma WithoutFillerOne(b: Block)
    ensures WithoutFiller([b]) == if b == FILLER then [] else [b]
    ensures WithoutFiller([]) == []
  {
    assert [b][..0] == [];
  }

  lemma SaidOne()
    ensures forall am :: Said([am]) == By(am.role, WithoutFiller(am.content))
    ensures Said([]) == []
  {
    hide WithoutFiller;
    forall am ensures Said([am]) == By(am.role, WithoutFiller(am.content)) {
      assert [am][..0] == [];
    }
  }

  lemma {:induction false} SaidTranslated(ms: seq<Message>, keep: set<string>)
    ensures Said(Translate(ms, keep)) == Transcript(ms, keep)
  {
    hide TranslateOne, Speech, Announced;
    if ms != [] {
      var n := |ms| - 1;
      SaidTranslated(ms[..n], keep);
      SaidTurn(ms[n], Announced(ms[..n]), keep);
      SaidConcat(Translate(ms[..n], keep), TranslateOne(ms[n], Announced(ms[..n]), keep));
    }
  }

  /**
   * Fillers aside, the request says what the history says, in its order and by the same side: every text, exactly the
   * settled calls, and exactly the results of calls that came before them.
   */
  lemma BuiltSaysHistory(ms: seq<Message>)
    ensures Said(Built(ms)) == Transcript(ms, Settled(ms))
  {
    hide Translate, Settled, Transcript;
    var api := Translate(ms, Settled(ms));
    SaidTranslated(ms, Settled(ms));
    SaidConcat(api, [ApiMessage(UserRole, [FILLER])]);
    FillerSaysNothing();
  }

  lemma FillerSaysNothing()
    ensures Said([ApiMessage(UserRole, [FILLER])]) == []
  {
    assert WithoutFiller([FILLER]) == [];
  }

  // ----- Repaired histories lose no call -----

  lemma SettledSnoc(ms: seq<Message>, m: Message)
    ensures Settled(ms + [m]) == Settled(ms) + if m.Tool? && m.toolUseId in Announced(ms) then {m.toolUseId} else {}
  {
    assert (ms + [m])[..|ms|] == ms;
  }

  lemma {:induction false} SettledPlaceholders(front: seq<Message>, calls: seq<ToolCall>, d: set<string>)
    requires "" !in d
    ensures Announced(front + Placeholders(calls, d)) == Announced(front)
    ensures Settled(front + Placeholders(calls, d)) == Settled(front) + CallIds(calls) * d * Announced(front)
  {
    hide Settled, Announced, CallIds, PlaceholderText;
    if calls == [] {
      NoCallIds();
      assert front + Placeholders(calls, d) == front;
    } else {
      var n := |calls| - 1;
      assert calls == calls[..n] + [calls[n]];
      SettledPlaceholders(front, calls[..n], d);
      CallIdsSnoc(calls[..n], calls[n]);
      var shorter := front + Placeholders(calls[..n], d);
      if calls[n].id in d {
        var p := Placeholder(calls[n]);
        assert front + Placeholders(calls, d) == shorter + [p];
        SettledSnoc(shorter, p);
        AnnouncedSnoc(shorter, p);
      } else {
        assert front + Placeholders(calls, d) == shorter;
      }
    }
  }

  /** A message and its placeholders behind a list: what they announce, and what they settle. */
  lemma SettledBlock(front: seq<Message>, m: Message, d: set<string>)
    requires "" !in d
    ensures var all := front + [m] + Placeholders(CallsOf(m), d);
            Announced(all) == Announced(front) + TurnCallIds(CallsOf(m))
            && Settled(all) == Settled(front) + (if m.Tool? && m.toolUseId in Announced(front) then {m.toolUseId} else {})
                               + CallIds(CallsOf(m)) * d * (Announced(front) + TurnCallIds(CallsOf(m)))
  {
    hide Announced, Settled, CallIds, TurnCallIds, Placeholders;
    AnnouncedSnoc(front, m);
    SettledSnoc(front, m);
    SettledPlaceholders(front + [m], CallsOf(m), d);
  }

  lemma {:induction false} SettledPatch(ms: seq<Message>, d: set<string>)
    requires "" !in d
    ensures Announced(Patch(ms, d)) == Announced(ms)
    ensures Settled(Patch(ms, d)) == Settled(ms) + Announced(ms) * d
  {
    if ms != [] {
      hide Announced, Settled, CallIds, TurnCallIds, Placeholders;
      var n := |ms| - 1;
      assert ms == ms[..n] + [ms[n]];
      SettledPatch(ms[..n], d);
      SettledBlock(Patch(ms[..n], d), ms[n], d);
      AnnouncedSnoc(ms[..n], ms[n]);
      SettledSnoc(ms[..n], ms[n]);
      NamedCallIds(CallsOf(ms[n]));
    } else {
      NothingAnnounced();
    }
  }

  lemma NoCallIds()
    ensures CallIds([]) == {}
  {
  }

  lemma NothingAnnounced()
    ensures Announced([]) == {}
  {
  }

  lemma NamedCallIds(calls: seq<ToolCall>)
    ensures TurnCallIds(calls) <= CallIds(calls)
  {
  }

  /** The builder keeps every call the providers are told about. */
  ghost predicate KeepsEveryCall(ms: seq<Message>) {
    UseIds(Built(ms)) == Announced(ms)
  }

  /**
   * Run on a repaired history, the builder strips nothing exactly when each announced call was dangling (its
   * placeholder stands behind it) or has a result that comes after it.
   */
  lemma RepairedKeepsEveryCall(ms: seq<Message>)
    ensures KeepsEveryCall(Repaired(ms)) <==> forall id :: id in Announced(ms) ==> id in Dangling(ms) || id in Settled(ms)
  {
    BuiltIds(Repaired(ms));
    SettledPatch(ms, Dangling(ms));
    SettledAnnounced(ms);
  }
}
