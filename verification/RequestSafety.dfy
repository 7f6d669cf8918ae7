/** The loop and the builder together: no request of a run has a call stripped or a call without a result behind it. */
module RequestSafety {
  import opened Prelude
  import opened Messages
  import opened Repair
  import opened PromptSpec
  import opened AgentSpec
  import opened AnthropicBuilder
  import AgentSafety
  import AnthropicSafety

  // ----- Calls without a result behind them -----

  /** The result that a message is: its id, if it has one. */
  function ResultOf(m: Message): set<string> {
    if m.Tool? then {m.toolUseId} else {}
  }

  /** The ids of announced calls that no later result answers; a result before the call does not count. */
  ghost function Open(ms: seq<Message>): set<string> {
    if ms == [] then {} else
      var n := |ms| - 1;
      Open(ms[..n]) + TurnCallIds(CallsOf(ms[n])) - ResultOf(ms[n])
  }

  lemma OpenSnoc(ms: seq<Message>, m: Message)
    ensures Open(ms + [m]) == Open(ms) + TurnCallIds(CallsOf(m)) - ResultOf(m)
  {
    assert (ms + [m])[..|ms|] == ms;
  }

  /** Whatever stands in front of a part of the list, the part's own open calls stay open, and nothing else opens. */
  lemma {:induction false} OpenConcat(a: seq<Message>, b: seq<Message>)
    ensures Open(b) <= Open(a + b) <= Open(a) + Open(b)
  {
    hide TurnCallIds;
    if b == [] {
      assert a + b == a;
    } else {
      var n := |b| - 1;
      assert a + b == (a + b[..n]) + [b[n]] && b == b[..n] + [b[n]];
      OpenConcat(a, b[..n]);
      OpenSnoc(a + b[..n], b[n]);
      OpenSnoc(b[..n], b[n]);
    }
  }

  lemma {:induction false} OpenSame(a: seq<Message>, b: seq<Message>)
    requires |a| == |b| && forall i :: 0 <= i < |a| ==> CallsOf(a[i]) == CallsOf(b[i]) && ResultOf(a[i]) == ResultOf(b[i])
    ensures Open(a) == Open(b)
  {
    if a != [] { OpenSame(a[..|a| - 1], b[..|b| - 1]); }
  }

  /** With nothing open, every announced call is settled. */
  lemma {:induction false} OpenCovers(ms: seq<Message>)
    ensures Announced(ms) - Settled(ms) <= Open(ms) <= Announced(ms)
  {
    if ms == [] {
      AnthropicSafety.NothingAnnounced();
    } else {
      hide Announced, TurnCallIds;
      var n := |ms| - 1;
      assert ms == ms[..n] + [ms[n]];
      OpenCovers(ms[..n]);
      AnnouncedSnoc(ms[..n], ms[n]);
      AnthropicSafety.SettledSnoc(ms[..n], ms[n]);
    }
  }

  // ----- Repair and compaction -----

  lemma {:induction false} OpenPlaceholders(front: seq<Message>, calls: seq<ToolCall>, d: set<string>)
    requires "" !in d
    ensures Open(front + Placeholders(calls, d)) == Open(front) - CallIds(calls) * d
  {
    hide Open, TurnCallIds, CallIds, PlaceholderText;
    if calls == [] {
      NoCalls();
      assert front + Placeholders(calls, d) == front;
    } else {
      var n := |calls| - 1;
      var shorter := front + Placeholders(calls[..n], d);
      assert calls == calls[..n] + [calls[n]];
      OpenPlaceholders(front, calls[..n], d);
      CallIdsSnoc(calls[..n], calls[n]);
      if calls[n].id in d {
        assert front + Placeholders(calls, d) == shorter + [Placeholder(calls[n])];
        OpenSnoc(shorter, Placeholder(calls[n]));
        NoTurnCalls();
      } else {
        assert front + Placeholders(calls, d) == shorter;
      }
    }
  }

  /** Repairing closes exactly the calls it puts a placeholder behind. */
  lemma {:induction false} OpenPatch(ms: seq<Message>, d: set<string>)
    requires "" !in d
    ensures Open(Patch(ms, d)) == Open(ms) - d
  {
    if ms != [] {
      hide TurnCallIds, CallIds, Placeholders;
      var n := |ms| - 1;
      var front := Patch(ms[..n], d);
      assert ms == ms[..n] + [ms[n]];
      OpenPatch(ms[..n], d);
      OpenSnoc(front, ms[n]);
      OpenSnoc(ms[..n], ms[n]);
      OpenPlaceholders(front + [ms[n]], CallsOf(ms[n]), d);
      TurnIsCall(CallsOf(ms[n]));
    }
  }

  lemma TurnIsCall(calls: seq<ToolCall>)
    ensures TurnCallIds(calls) <= CallIds(calls)
  {
  }

  lemma DanglingNamed(ms: seq<Message>)
    ensures "" !in Dangling(ms)
  {
  }

  /** A repaired history has nothing open if and only if what was open was dangling: resolved nowhere, not just not behind it. */
  lemma RepairedCloses(ms: seq<Message>)
    ensures Open(Repaired(ms)) == {} <==> Open(ms) <= Dangling(ms)
  {
    hide Open, Dangling;
    DanglingNamed(ms);
    OpenPatch(ms, Dangling(ms));
    assert forall id :: id in Open(ms) - Dangling(ms) <==> id in Open(ms) && id !in Dangling(ms);
  }

  lemma CompactedOpens(p: Prompt, keepRecent: int)
    ensures Open(Compacted(p, keepRecent).messages) <= Open(p.messages)
  {
    hide Open, Dangling;
    var kept := Kept(p, keepRecent);
    DanglingNamed(kept);
    OpenPatch(kept, Dangling(kept));
    var from := |p.messages| - |kept|;
    assert kept == p.messages[from..] && p.messages == p.messages[..from] + kept;
    OpenConcat(p.messages[..from], kept);
  }

  // ----- One iteration -----

  lemma ResultCloses(p: Prompt, text: string, id: string, cap: Cap)
    ensures Open(WithResult(p, text, id, cap).messages) == Open(p.messages) - {id}
  {
    OpenSnoc(p.messages, Tool(Enforced(text, cap, p.resultChars), id));
    NoTurnCalls();
  }

  /** A batch closes its own calls, compaction or not. */
  lemma {:induction false} BatchCloses(s: LoopState, calls: seq<ToolCall>, active: set<string>, ev: Events, cap: Cap)
    ensures Open(AfterBatch(s, calls, active, ev, cap).prompt.messages) <= Open(s.prompt.messages) - CallIds(calls)
  {
    hide Effective, ResultText, Compacted, Open, CallIds;
    if calls == [] {
      NoCalls();
    } else {
      var n := |calls| - 1;
      var o := Effective(calls[n], active, ev, n);
      var before := AfterBatch(s, calls[..n], active, ev, cap);
      BatchCloses(s, calls[..n], active, ev, cap);
      assert calls == calls[..n] + [calls[n]];
      CallIdsSnoc(calls[..n], calls[n]);
      ResultCloses(before.prompt, ResultText(o), calls[n].id, cap);
      CompactedOpens(WithResult(before.prompt, ResultText(o), calls[n].id, cap), KeepRecent(calls[n]));
    }
  }

  lemma {:induction false} WarningsClose(front: seq<Message>, ends: seq<ToolCall>, text: string)
    ensures Open(front + EndWarnings(ends, text)) == Open(front) - AgentSafety.WarningIds(ends)
  {
    hide Open;
    var ws := EndWarnings(ends, text);
    if ends == [] {
      assert front + ws == front;
    } else {
      var n := |ends| - 1;
      WarningsClose(front, ends[..n], text);
      assert EndWarnings(ends[..n], text) == ws[..n] && ws == ws[..n] + [ws[n]];
      assert front + ws == (front + ws[..n]) + [ws[n]];
      OpenSnoc(front + ws[..n], ws[n]);
      NoTurnCalls();
      assert AgentSafety.WarningIds(ends) == AgentSafety.WarningIds(ends[..n]) + {WarningId(ends[n])} by {
        assert ends == ends[..n] + [ends[n]];
      }
    }
  }

  lemma WarnedCloses(s: LoopState, calls: seq<ToolCall>, text: string)
    ensures Open(Warned(s, calls, text).prompt.messages) <= Open(s.prompt.messages)
            - if EndCalls(calls) != [] && RegularCalls(calls) != [] then AgentSafety.WarningIds(EndCalls(calls)) else {}
  {
    hide Open;
    WarningsClose(s.prompt.messages, EndCalls(calls), text);
  }

  lemma EnteredCloses(s: LoopState, calls: seq<ToolCall>, cfg: Config)
    ensures Open(Entered(s, calls, cfg).prompt.messages) <= Open(s.prompt.messages)
            - if Transitions(cfg, s.session, calls) then {TransitionId(cfg.texts, ThinkingCalls(calls)[0])} else {}
  {
    hide Open, ThinkingCalls;
    if Transitions(cfg, s.session, calls) {
      var td := ThinkingCalls(calls)[0];
      ResultCloses(s.prompt, TransitionText(cfg.texts, td), TransitionId(cfg.texts, td), cfg.cap);
    }
  }

  /** A dispatch closes every call it handles. */
  lemma DispatchCloses(s: LoopState, calls: seq<ToolCall>, cfg: Config, ev: Events)
    ensures Open(Dispatched(s, calls, cfg, ev).0.prompt.messages) <= Open(s.prompt.messages) - AgentSafety.HandledIds(s.session, calls, cfg)
  {
    hide Open, AfterBatch, Warned, CallIds, RegularCalls, EndCalls, ThinkingCalls, OtherCalls, Effective;
    AgentSafety.RemainingCalls(s, calls, cfg);
    var s1, rest := Entered(s, calls, cfg), Remaining(s, calls, cfg);
    EnteredCloses(s, calls, cfg);
    WarnedCloses(s1, rest, cfg.texts.endSolo);
    BatchCloses(Warned(s1, rest, cfg.texts.endSolo), RegularCalls(rest), Active(cfg, s1.session.stage), ev, cfg.cap);
  }

  lemma UserOpensNothing(ms: seq<Message>, text: string)
    ensures Open(ms + [User(text)]) == Open(ms)
  {
    OpenSnoc(ms, User(text));
    NoTurnCalls();
  }

  lemma ExpiredOpens(ms: seq<Message>, notice: string)
    ensures Open(Expired(ms, notice)) == Open(ms)
  {
    OpenSame(Expired(ms, notice), ms);
  }

  /** What is put into the prompt before a model call neither opens nor closes a call. */
  lemma AtCallOpens(s: LoopState, cfg: Config, ev: Events)
    ensures Open(AtCall(s, cfg, ev).prompt.messages) == Open(s.prompt.messages)
  {
    hide Open, HistoryPressure, Expired;
    if ev.unread.Some? { UserOpensNothing(s.prompt.messages, ev.unread.value); }
    var s1 := WithUnread(s, ev);
    UserOpensNothing(s1.prompt.messages, cfg.texts.memory);
    UserOpensNothing(s1.prompt.messages, cfg.texts.history);
    UserOpensNothing(s1.prompt.messages + [User(cfg.texts.memory)], cfg.texts.history);
    ExpiredOpens(Summarized(s1, cfg, ev.memoryPressure).prompt.messages, cfg.texts.expired);
  }

  /** Every announced call of the reply gets a result in its dispatch. */
  ghost predicate CallsHandled(s: LoopState, cfg: Config, ev: Events) {
    ev.reply.Some? ==>
      TurnCallIds(ev.reply.value.calls) <= AgentSafety.HandledIds(AtCall(s, cfg, ev).session, ev.reply.value.calls, cfg)
  }

  /** An iteration that goes on, and whose reply is handled, leaves nothing open that was not. */
  lemma IterationCloses(s: LoopState, cfg: Config, ev: Events)
    requires Iterated(s, cfg, ev).end == None && CallsHandled(s, cfg, ev)
    ensures Open(Iterated(s, cfg, ev).state.prompt.messages) <= Open(s.prompt.messages)
  {
    hide Open, AtCall, Dispatched, TurnCallIds, AgentSafety.HandledIds;
    AtCallOpens(s, cfg, ev);
    var r := ev.reply.value;
    OpenSnoc(AtCall(s, cfg, ev).prompt.messages, Assistant(r.content, r.calls));
    DispatchCloses(Replied(s, cfg, ev), r.calls, cfg, ev);
    HandledSame(Replied(s, cfg, ev).session, AtCall(s, cfg, ev).session, r.calls, cfg);
  }

  lemma HandledSame(a: Session, b: Session, calls: seq<ToolCall>, cfg: Config)
    requires a.stage == b.stage
    ensures AgentSafety.HandledIds(a, calls, cfg) == AgentSafety.HandledIds(b, calls, cfg)
  {
  }

  /** Under the stage discipline a dispatch that goes on handles every call of its reply. */
  lemma DisciplinedHandles(s: LoopState, cfg: Config, ev: Events)
    requires Iterated(s, cfg, ev).end == None
    requires AgentSafety.SaysThinkingDone(ev) ==>
      cfg.thinkingEnabled && s.session.stage == Thinking && |ThinkingCalls(ev.reply.value.calls)| == 1
    ensures CallsHandled(s, cfg, ev)
  {
    var calls, sent := ev.reply.value.calls, AtCall(s, cfg, ev).session;
    AgentSafety.RemainingCalls(Replied(s, cfg, ev), calls, cfg);
    SameStage(s, cfg, ev);
    hide AtCall, AfterBatch, Warned, Entered, RegularCalls, EndCalls, ThinkingCalls, AgentSafety.HandledIds;
    assert !(EndCalls(calls) != [] && RegularCalls(calls) == []);
    forall tc | tc in calls && WellFormed(tc) ensures tc.id in AgentSafety.HandledIds(sent, calls, cfg) {
      CallHandled(sent, calls, cfg, tc);
    }
  }

  lemma CallHandled(sent: Session, calls: seq<ToolCall>, cfg: Config, tc: ToolCall)
    requires tc in calls && WellFormed(tc) && !(EndCalls(calls) != [] && RegularCalls(calls) == [])
    requires ThinkingCalls(calls) != [] ==> cfg.thinkingEnabled && sent.stage == Thinking && |ThinkingCalls(calls)| == 1
    ensures tc.id in AgentSafety.HandledIds(sent, calls, cfg)
  {
    hide RegularCalls, EndCalls, ThinkingCalls;
    if tc in ThinkingCalls(calls) {
      assert ThinkingCalls(calls)[0] == tc && TransitionId(cfg.texts, tc) == tc.id;
    } else if tc in RegularCalls(calls) {
      assert tc.id in CallIds(RegularCalls(calls));
    } else {
      assert tc in EndCalls(calls) && WarningId(tc) == tc.id;
    }
  }

  lemma SameStage(s: LoopState, cfg: Config, ev: Events)
    ensures AtCall(s, cfg, ev).session.stage == s.session.stage
  {
  }

  // ----- Whole runs -----

  lemma {:induction false} ClosedAfter(s: LoopState, cfg: Config, world: nat -> Events, n: nat)
    requires Open(s.prompt.messages) == {} && s.session.stage == AgentSafety.InitialStage(cfg)
    requires AgentSafety.Disciplined(cfg, world) && Reached(s, cfg, world, n)
    ensures Open(After(s, cfg, world, n).prompt.messages) == {}
  {
    hide Iterated, Open, CallsHandled;
    if n > 0 {
      ClosedAfter(s, cfg, world, n - 1);
      AgentSafety.StageAfter(s, cfg, world, n - 1);
      DisciplinedHandles(After(s, cfg, world, n - 1), cfg, world(n - 1));
      IterationCloses(After(s, cfg, world, n - 1), cfg, world(n - 1));
    }
  }

  // ----- The requests -----

  /** The uses of a request that no later message answers. */
  ghost function Owed(api: seq<ApiMessage>): set<string> {
    if api == [] then {} else
      var n := |api| - 1;
      Owed(api[..n]) - AnthropicSafety.ResultIds([api[n]]) + AnthropicSafety.UseIds([api[n]])
  }

  /** Every tool_use of a request has a tool_result of its id in a later message. */
  ghost predicate UsesAnswered(api: seq<ApiMessage>) {
    forall i, b :: 0 <= i < |api| && b in api[i].content && b.ToolUse? ==>
      exists j :: i < j < |api| && ToolResultIn(api[j], b.id)
  }

  ghost predicate ToolResultIn(am: ApiMessage, id: string) {
    exists b :: b in am.content && b.ToolResult? && b.toolUseId == id
  }

  lemma {:induction false} OwedMeans(api: seq<ApiMessage>, i: nat, b: Block)
    requires i < |api| && b in api[i].content && b.ToolUse?
    ensures b.id in Owed(api) || exists j :: i < j < |api| && ToolResultIn(api[j], b.id)
  {
    var n := |api| - 1;
    if i == n {
      assert api[n] in [api[n]] && b.id in AnthropicSafety.UseIds([api[n]]);
    } else {
      OwedMeans(api[..n], i, b);
      if b.id in Owed(api[..n]) {
        assert b.id in AnthropicSafety.ResultIds([api[n]]) ==> ToolResultIn(api[n], b.id);
      } else {
        var j :| i < j < n && ToolResultIn(api[..n][j], b.id);
        assert ToolResultIn(api[j], b.id);
      }
    }
  }

  lemma OwedSnoc(api: seq<ApiMessage>, am: ApiMessage)
    ensures Owed(api + [am]) == Owed(api) - AnthropicSafety.ResultIds([am]) + AnthropicSafety.UseIds([am])
  {
    assert (api + [am])[..|api|] == api;
  }

  lemma {:induction false} OwedTranslated(ms: seq<Message>, keep: set<string>)
    ensures Owed(Translate(ms, keep)) <= Open(ms)
  {
    if ms != [] {
      hide TurnCallIds, Announced, AnthropicSafety.UseIds, AnthropicSafety.ResultIds, Owed, TranslateOne;
      var n := |ms| - 1;
      var front, turn := Translate(ms[..n], keep), TranslateOne(ms[n], Announced(ms[..n]), keep);
      OwedTranslated(ms[..n], keep);
      OpenCovers(ms[..n]);
      TurnOwes(ms[n], Announced(ms[..n]), keep);
      if turn == [] {
        assert front + turn == front;
      } else {
        OwedSnoc(front, turn[0]);
      }
    }
  }

  lemma TurnOwes(m: Message, announced: set<string>, keep: set<string>)
    ensures var turn := TranslateOne(m, announced, keep);
      (turn == [] ==> CallsOf(m) == [] && ResultOf(m) !! announced)
      && (turn != [] ==> turn == [turn[0]] && AnthropicSafety.UseIds([turn[0]]) <= TurnCallIds(CallsOf(m))
                         && AnthropicSafety.ResultIds([turn[0]]) == ResultOf(m))
  {
    hide TurnCallIds, AnthropicSafety.UseIds, AnthropicSafety.ResultIds, Uses, UserText;
    AnthropicSafety.TurnIds(m, announced, keep);
  }

  /** The request made of a prompt: no call is stripped from it, and each has its result in a later message. */
  ghost predicate Complete(ms: seq<Message>) {
    AnthropicSafety.KeepsEveryCall(ms) && UsesAnswered(Built(ms))
  }

  lemma ClosedIsComplete(ms: seq<Message>)
    requires Open(ms) == {}
    ensures Complete(ms) && Announced(ms) == Settled(ms)
  {
    hide Open, Owed, Translate, Settled, Announced, AnthropicSafety.UseIds, AnthropicSafety.ResultIds;
    OpenCovers(ms);
    SettledAnnounced(ms);
    assert forall id :: id in Announced(ms) - Settled(ms) <==> id in Announced(ms) && id !in Settled(ms);
    assert Announced(ms) == Settled(ms);
    AnthropicSafety.BuiltIds(ms);
    var api := Translate(ms, Settled(ms));
    OwedTranslated(ms, Settled(ms));
    OwedSnoc(api, ApiMessage(UserRole, [FILLER]));
    AnthropicSafety.FillerIds();
    forall i, b | 0 <= i < |Built(ms)| && b in Built(ms)[i].content && b.ToolUse?
      ensures exists j :: i < j < |Built(ms)| && ToolResultIn(Built(ms)[j], b.id)
    {
      OwedMeans(Built(ms), i, b);
    }
  }

  lemma SentIsAtCall(s: LoopState, cfg: Config, ev: Events)
    ensures Iterated(s, cfg, ev).sent.Some? ==> Iterated(s, cfg, ev).sent.value == AtCall(s, cfg, ev).prompt.messages
  {
    hide AtCall, Dispatched;
  }

  /**
   * The loop and the builder together: under the stage discipline, from a prompt with nothing open, every prompt of every run
   * becomes a request from which no call is stripped and in which each call has its result behind it.
   */
  lemma {:induction false} EveryRequestComplete(s: LoopState, cfg: Config, world: nat -> Events, n: nat)
    requires Open(s.prompt.messages) == {} && s.session.stage == AgentSafety.InitialStage(cfg)
    requires AgentSafety.Disciplined(cfg, world) && (n > 0 ==> Reached(s, cfg, world, n - 1))
    ensures forall k :: 0 <= k < |Sent(s, cfg, world, n)| ==> Complete(Sent(s, cfg, world, n)[k])
  {
    hide Open, Complete, AtCall, Iterated;
    if n > 0 {
      EveryRequestComplete(s, cfg, world, n - 1);
      SentIsAtCall(After(s, cfg, world, n - 1), cfg, world(n - 1));
      ClosedAfter(s, cfg, world, n - 1);
      AtCallOpens(After(s, cfg, world, n - 1), cfg, world(n - 1));
      ClosedIsComplete(AtCall(After(s, cfg, world, n - 1), cfg, world(n - 1)).prompt.messages);
    }
  }

  /**
   * That every announced call is settled would not do as the hypothesis: with an id that is used again, a compaction can keep
   * the old result and cut its call, and the new call, which has a result before it and none behind it, is stripped.
   */
  lemma ReusedIdLost(input: ToolInput)
    ensures var use, result := Assistant("", [ToolCall("x", "t", input)]), Tool("", "x");
      var p := Prompt([use, result, use], 0, 0);
      Announced(p.messages) == Settled(p.messages) == {"x"}
      && Compacted(p, 2).messages == [result, use] && Announced([result, use]) == {"x"} && Settled([result, use]) == {}
  {
    hide Announced, Settled, IssuedIds, ResolvedIds, CallIds, TurnCallIds, Patch;
    var use, result := Assistant("", [ToolCall("x", "t", input)]), Tool("", "x");
    var none: seq<Message> := [];
    assert none + [use] == [use] && none + [result] == [result];
    assert [use] + [result] == [use, result] && [use, result] + [use] == [use, result, use] && [result] + [use] == [result, use];
    OneCall(use, ToolCall("x", "t", input));
    Snoc(none, use);
    Snoc([use], result);
    Snoc([use, result], use);
    Snoc(none, result);
    Snoc([result], use);
    IdsOfNone();
    AnthropicSafety.NothingAnnounced();
    SettledNone();
    assert Dangling([result, use]) == {};
    PatchNothing([result, use]);
    assert [use, result, use][1..] == [result, use];
  }

  lemma Snoc(ms: seq<Message>, m: Message)
    ensures Announced(ms + [m]) == Announced(ms) + TurnCallIds(CallsOf(m))
    ensures Settled(ms + [m]) == Settled(ms) + if m.Tool? && m.toolUseId in Announced(ms) then {m.toolUseId} else {}
    ensures IssuedIds(ms + [m]) == IssuedIds(ms) + CallIds(CallsOf(m))
    ensures ResolvedIds(ms + [m]) == ResolvedIds(ms) + if m.Tool? && m.toolUseId != "" then {m.toolUseId} else {}
  {
    AnnouncedSnoc(ms, m);
    AnthropicSafety.SettledSnoc(ms, m);
    IdsOfSnoc(ms, m);
  }

  lemma SettledNone()
    ensures Settled([]) == {}
  {
  }

  lemma OneCall(m: Message, tc: ToolCall)
    requires CallsOf(m) == [tc] && WellFormed(tc)
    ensures TurnCallIds(CallsOf(m)) == {tc.id} && CallIds(CallsOf(m)) == {tc.id}
    ensures TurnCallIds([]) == {} && CallIds([]) == {}
  {
    assert tc in CallsOf(m);
  }
}
