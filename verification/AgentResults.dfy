/** What the tool results of a batch say: which call each of them answers, with whose output, and how much of it. */
module AgentResults {
  import opened Prelude
  import opened Messages
  import opened PromptSpec
  import opened AgentSpec
  import opened AgentSafety

  /** raw is what the model is to be told of call k, before the allowance is applied. */
  ghost predicate Reports(raw: string, tc: ToolCall, active: set<string>, ev: Events, k: nat) {
    if tc.name in ev.disabled || tc.name !in active then raw == ev.refusal(tc.name)
    else match ev.outcomes(k)
      case Failed(error) => raw == error
      case Returned(text) =>
        if |text| <= 12000 then raw == text else raw == text[..12000] + "\n[output truncated]"
  }

  /** With left characters of the allowance, stored is raw, or its first characters and a notice, or the other notice. */
  ghost predicate Fits(stored: string, raw: string, left: int, cap: Cap) {
    if |raw| <= left then stored == raw
    else if left > 0 then stored == raw[..left] + cap.truncated
    else stored == cap.omitted
  }

  /** No call of the batch is a compact_history that runs and returns. */
  ghost predicate NoCompaction(calls: seq<ToolCall>, active: set<string>, ev: Events) {
    forall k :: 0 <= k < |calls| && calls[k].name == "compact_history" ==>
      calls[k].name in ev.disabled || calls[k].name !in active || ev.outcomes(k).Failed?
  }

  /** Some call of the batch is an update_memory that runs and returns. */
  ghost predicate UpdatesMemory(calls: seq<ToolCall>, active: set<string>, ev: Events) {
    exists k :: 0 <= k < |calls| && calls[k].name == "update_memory"
      && calls[k].name !in ev.disabled && calls[k].name in active && ev.outcomes(k).Returned?
  }

  /** Message number |before| + k answers call k, with what is left of the allowance behind the results before it. */
  ghost predicate ResultAt(before: Prompt, ms: seq<Message>, calls: seq<ToolCall>, active: set<string>, ev: Events, cap: Cap, k: nat)
    requires k < |calls| && |before.messages| + k < |ms|
  {
    var at := |before.messages| + k;
    var left := cap.chars - before.resultChars - ContentChars(ms[|before.messages|..at]);
    ms[at].Tool? && ms[at].toolUseId == calls[k].id
    && exists raw :: Reports(raw, calls[k], active, ev, k) && Fits(ms[at].content, raw, left, cap)
  }

  /** after is before with one result for each of the calls, in their order, and nothing else. */
  ghost predicate Recorded(before: Prompt, after: Prompt, calls: seq<ToolCall>, active: set<string>, ev: Events, cap: Cap) {
    before.messages <= after.messages && |after.messages| == |before.messages| + |calls|
    && after.sessionStart == before.sessionStart
    && after.resultChars == before.resultChars + ContentChars(after.messages[|before.messages|..])
    && forall k :: 0 <= k < |calls| ==> ResultAt(before, after.messages, calls, active, ev, cap, k)
  }

  /** A call that does not compact adds its own result and nothing else. */
  lemma OneResult(s: LoopState, tc: ToolCall, active: set<string>, ev: Events, cap: Cap, k: nat)
    requires tc.name != "compact_history" || tc.name in ev.disabled || tc.name !in active || ev.outcomes(k).Failed?
    ensures var after := AfterTool(s, tc, Effective(tc, active, ev, k), cap).prompt;
            exists raw, stored :: Reports(raw, tc, active, ev, k) && Fits(stored, raw, cap.chars - s.prompt.resultChars, cap)
              && after == Prompt(s.prompt.messages + [Tool(stored, tc.id)], s.prompt.sessionStart, s.prompt.resultChars + |stored|)
    ensures var after := AfterTool(s, tc, Effective(tc, active, ev, k), cap).session;
            after == s.session.(memoryInjected := s.session.memoryInjected && !UpdatesNow(tc, active, ev, k))
  {
    var raw := ResultText(Effective(tc, active, ev, k));
    assert Reports(raw, tc, active, ev, k);
    assert Fits(Enforced(raw, cap, s.prompt.resultChars), raw, cap.chars - s.prompt.resultChars, cap);
  }

  ghost predicate UpdatesNow(tc: ToolCall, active: set<string>, ev: Events, k: nat) {
    tc.name == "update_memory" && tc.name !in ev.disabled && tc.name in active && ev.outcomes(k).Returned?
  }

  lemma RecordedNext(before: Prompt, mid: Prompt, stored: string, raw: string, calls: seq<ToolCall>, active: set<string>, ev: Events,
                     cap: Cap)
    requires calls != [] && Recorded(before, mid, calls[..|calls| - 1], active, ev, cap)
    requires Reports(raw, calls[|calls| - 1], active, ev, |calls| - 1) && Fits(stored, raw, cap.chars - mid.resultChars, cap)
    ensures Recorded(before, Prompt(mid.messages + [Tool(stored, calls[|calls| - 1].id)], mid.sessionStart, mid.resultChars + |stored|),
                     calls, active, ev, cap)
  {
    hide Reports, Fits;
    var n, b := |calls| - 1, |before.messages|;
    var m := Tool(stored, calls[n].id);
    var ms := mid.messages + [m];
    assert ms[b..][..n] == mid.messages[b..] && ms[b..] == mid.messages[b..] + [m];
    forall k | 0 <= k < n ensures ResultAt(before, ms, calls, active, ev, cap, k) {
      assert ResultAt(before, mid.messages, calls[..n], active, ev, cap, k);
      assert ms[b..b + k] == mid.messages[b..b + k];
    }
    assert ms[b..b + n] == mid.messages[b..];
    assert ResultAt(before, ms, calls, active, ev, cap, n);
  }

  /**
   * In a batch in which no compact_history succeeds every call gets one result, in order and under its own id. It
   * carries the refusal of a disabled or unknown tool, or that call's own error or output, cut to 12000 characters,
   * and then as much of it as the allowance still lets in.
   */
  lemma {:induction false} BatchResults(s: LoopState, calls: seq<ToolCall>, active: set<string>, ev: Events, cap: Cap)
    requires NoCompaction(calls, active, ev)
    ensures Recorded(s.prompt, AfterBatch(s, calls, active, ev, cap).prompt, calls, active, ev, cap)
    ensures AfterBatch(s, calls, active, ev, cap).session
            == s.session.(memoryInjected := s.session.memoryInjected && !UpdatesMemory(calls, active, ev))
  {
    hide Effective, AfterTool, Reports, Fits, Recorded;
    if calls == [] {
      assert Recorded(s.prompt, s.prompt, calls, active, ev, cap) by { NothingRecorded(s.prompt, active, ev, cap); }
    } else {
      var n := |calls| - 1;
      var mid := AfterBatch(s, calls[..n], active, ev, cap);
      assert forall k :: 0 <= k < n ==> calls[..n][k] == calls[k];
      BatchResults(s, calls[..n], active, ev, cap);
      OneResult(mid, calls[n], active, ev, cap, n);
      var after := AfterTool(mid, calls[n], Effective(calls[n], active, ev, n), cap).prompt;
      var raw, stored :| Reports(raw, calls[n], active, ev, n) && Fits(stored, raw, cap.chars - mid.prompt.resultChars, cap)
        && after == Prompt(mid.prompt.messages + [Tool(stored, calls[n].id)], mid.prompt.sessionStart, mid.prompt.resultChars + |stored|);
      RecordedNext(s.prompt, mid.prompt, stored, raw, calls, active, ev, cap);
      UpdatesNext(calls, active, ev);
    }
  }

  lemma NothingRecorded(p: Prompt, active: set<string>, ev: Events, cap: Cap)
    ensures Recorded(p, p, [], active, ev, cap)
  {
  }

  lemma UpdatesNext(calls: seq<ToolCall>, active: set<string>, ev: Events)
    requires calls != []
    ensures var n := |calls| - 1;
            UpdatesMemory(calls, active, ev) <==> UpdatesMemory(calls[..n], active, ev) || UpdatesNow(calls[n], active, ev, n)
  {
    var n := |calls| - 1;
    assert forall k :: 0 <= k < n ==> calls[..n][k] == calls[k];
  }

  /** After the result of a compact_history, what stays is the end of the session with that result, placeholders aside. */
  lemma OneCompaction(s: LoopState, tc: ToolCall, text: string, cap: Cap)
    requires tc.name == "compact_history"
    ensures var keep := if tc.input.keepRecent.Some? then tc.input.keepRecent.value else 20;
            var after := AfterTool(s, tc, Returned(text), cap);
            exists stored :: Fits(stored, if |text| <= 12000 then text else text[..12000] + "\n[output truncated]",
                                  cap.chars - s.prompt.resultChars, cap)
              && after.prompt == Compacted(Prompt(s.prompt.messages + [Tool(stored, tc.id)], s.prompt.sessionStart,
                                                  s.prompt.resultChars + |stored|), keep)
    ensures AfterTool(s, tc, Returned(text), cap).session == s.session.(historyInjected := false)
  {
    var raw := TruncateToolOutput(text);
    assert Fits(Enforced(raw, cap, s.prompt.resultChars), raw, cap.chars - s.prompt.resultChars, cap);
  }

  /** A batch may be cut anywhere: its first part runs, and then the rest, with the outcomes that are left. */
  lemma {:induction false} BatchInTwo(s: LoopState, first: seq<ToolCall>, rest: seq<ToolCall>, active: set<string>, ev: Events, cap: Cap)
    ensures AfterBatch(s, first + rest, active, ev, cap)
         == AfterBatch(AfterBatch(s, first, active, ev, cap), rest, active, ev.(outcomes := (k: nat) => ev.outcomes(|first| + k)), cap)
  {
    hide AfterTool;
    var calls := first + rest;
    if rest == [] {
      assert calls == first;
    } else {
      var n := |rest| - 1;
      assert calls[..|calls| - 1] == first + rest[..n] && calls[|calls| - 1] == rest[n];
      BatchInTwo(s, first, rest[..n], active, ev, cap);
    }
  }

  /** Choosing calls of a reply keeps their order and number. */
  lemma {:induction false} SelectConcat(a: seq<ToolCall>, b: seq<ToolCall>, pick: ToolCall -> bool)
    ensures Select(a + b, pick) == Select(a, pick) + Select(b, pick)
  {
    if b == [] {
      assert a + b == a;
    } else {
      var n := |b| - 1;
      assert (a + b)[..|a + b| - 1] == a + b[..n];
      SelectConcat(a, b[..n], pick);
    }
  }

  // ----- A dispatch -----

  /** The result of the thinking_done call that ends the thinking stage, if this reply has one. */
  ghost predicate TransitionResult(t: seq<Message>, s: LoopState, calls: seq<ToolCall>, cfg: Config) {
    if cfg.thinkingEnabled && s.session.stage == Thinking && ThinkingCalls(calls) != [] then
      var td := ThinkingCalls(calls)[0];
      var summary := if td.input.summary.Some? then td.input.summary.value else cfg.texts.noSummary;
      |t| == 1 && t[0].Tool? && t[0].toolUseId == (if td.id != "" then td.id else cfg.texts.transitionId)
      && Fits(t[0].content, cfg.texts.transition + summary, cfg.cap.chars - s.prompt.resultChars, cfg.cap)
    else t == []
  }

  /** A warning for each END call of a reply that has other work too. */
  ghost predicate SoloWarnings(w: seq<Message>, calls: seq<ToolCall>, cfg: Config) {
    if RegularCalls(calls) == [] then w == [] else
      |w| == |EndCalls(calls)| && forall k :: 0 <= k < |w| ==>
        w[k] == Tool(cfg.texts.endSolo, if EndCalls(calls)[k].id != "" then EndCalls(calls)[k].id else "end-solo-rule")
  }

  /** The tools the regular calls of a reply can use. */
  ghost function ToolsFor(s: LoopState, calls: seq<ToolCall>, cfg: Config): set<string> {
    if cfg.thinkingEnabled && StageOf(s.session, calls, cfg) == Thinking then cfg.thinkingHandlers else cfg.handlers
  }

  /** before is followed by the result of the transition, the END warnings and one result for each regular call. */
  ghost predicate DispatchSaid(s: LoopState, after: LoopState, calls: seq<ToolCall>, cfg: Config, ev: Events) {
    exists t, w :: TransitionResult(t, s, calls, cfg) && SoloWarnings(w, calls, cfg)
      && Recorded(Prompt(s.prompt.messages + t + w, s.prompt.sessionStart, s.prompt.resultChars + ContentChars(t)), after.prompt,
                  RegularCalls(calls), ToolsFor(s, calls, cfg), ev, cfg.cap)
  }

  lemma EnteredSays(s: LoopState, calls: seq<ToolCall>, cfg: Config) returns (t: seq<Message>)
    ensures TransitionResult(t, s, calls, cfg) && Entered(s, calls, cfg).prompt
         == Prompt(s.prompt.messages + t, s.prompt.sessionStart, s.prompt.resultChars + ContentChars(t))
    ensures Entered(s, calls, cfg).session == s.session.(stage := StageOf(s.session, calls, cfg))
  {
    hide Select, ThinkingCalls;
    if Transitions(cfg, s.session, calls) {
      var td := ThinkingCalls(calls)[0];
      var raw := TransitionText(cfg.texts, td);
      var stored := Enforced(raw, cfg.cap, s.prompt.resultChars);
      assert Fits(stored, raw, cfg.cap.chars - s.prompt.resultChars, cfg.cap);
      t := [Tool(stored, TransitionId(cfg.texts, td))];
      assert t[..0] == [];
    } else {
      t := [];
      assert s.prompt.messages + t == s.prompt.messages;
    }
  }

  lemma WarnedSays(s: LoopState, calls: seq<ToolCall>, cfg: Config) returns (w: seq<Message>)
    ensures SoloWarnings(w, calls, cfg)
    ensures Warned(s, calls, cfg.texts.endSolo) == s.(prompt := s.prompt.(messages := s.prompt.messages + w))
  {
    hide Select, EndCalls, RegularCalls;
    if EndCalls(calls) != [] && RegularCalls(calls) != [] {
      w := EndWarnings(EndCalls(calls), cfg.texts.endSolo);
    } else {
      w := [];
      assert s.prompt.messages + w == s.prompt.messages;
    }
  }

  /**
   * A dispatch without a compaction answers with the transition's text, the END warnings and the regular calls' own
   * results, in this order, and does nothing else to the prompt.
   */
  lemma DispatchResults(s: LoopState, calls: seq<ToolCall>, cfg: Config, ev: Events)
    requires NoCompaction(RegularCalls(calls), ToolsFor(s, calls, cfg), ev)
    ensures DispatchSaid(s, Dispatched(s, calls, cfg, ev).0, calls, cfg, ev)
    ensures Dispatched(s, calls, cfg, ev).0.session.stage == StageOf(s.session, calls, cfg)
    ensures Dispatched(s, calls, cfg, ev).1 == if EndCalls(calls) != [] && RegularCalls(calls) == [] then Some("normal_end") else None
  {
    hide Select, AfterBatch, Recorded, NoCompaction, ContentChars, EndWarnings, ThinkingCalls, EndCalls, RegularCalls, OtherCalls;
    RemainingCalls(s, calls, cfg);
    var s1, rest := Entered(s, calls, cfg), Remaining(s, calls, cfg);
    var t := EnteredSays(s, calls, cfg);
    var w := WarnedSays(s1, rest, cfg);
    assert SoloWarnings(w, calls, cfg);
    BatchResults(Warned(s1, rest, cfg.texts.endSolo), RegularCalls(calls), ToolsFor(s, calls, cfg), ev, cfg.cap);
    assert Recorded(Prompt(s.prompt.messages + t + w, s.prompt.sessionStart, s.prompt.resultChars + ContentChars(t)),
                    Dispatched(s, calls, cfg, ev).0.prompt, RegularCalls(calls), ToolsFor(s, calls, cfg), ev, cfg.cap);
  }

  // ----- What the model is sent -----

  /** What is put behind the messages before a model call. */
  ghost function Injected(s: LoopState, cfg: Config, ev: Events): seq<Message> {
    var unread := if s.session.iteration > 0 && s.session.iteration % 5 == 0 && ev.unread.Some? then [User(ev.unread.value)] else [];
    var memory := if ev.memoryPressure && !s.session.memoryInjected then [User(cfg.texts.memory)] else [];
    var session := if s.prompt.sessionStart <= |s.prompt.messages + unread| then (s.prompt.messages + unread)[s.prompt.sessionStart..] else [];
    var full := cfg.sessionBudgetChars > 0 && 10 * ContentChars(session) >= 7 * cfg.sessionBudgetChars;
    unread + memory + if full && !s.session.historyInjected then [User(cfg.texts.history)] else []
  }

  /** Each warning is given once, when its pressure is there, behind the prompt. */
  ghost predicate Nudged(s: LoopState, after: LoopState, cfg: Config, memoryPressure: bool) {
    var current := if s.prompt.sessionStart <= |s.prompt.messages| then s.prompt.messages[s.prompt.sessionStart..] else [];
    var full := cfg.sessionBudgetChars > 0 && 10 * ContentChars(current) >= 7 * cfg.sessionBudgetChars;
    after.session == s.session.(memoryInjected := s.session.memoryInjected || memoryPressure,
                                historyInjected := s.session.historyInjected || full)
    && after.prompt.messages == s.prompt.messages
                                + (if memoryPressure && !s.session.memoryInjected then [User(cfg.texts.memory)] else [])
                                + (if full && !s.session.historyInjected then [User(cfg.texts.history)] else [])
  }

  lemma NudgedBy(s: LoopState, cfg: Config, memoryPressure: bool)
    ensures Nudged(s, Summarized(s, cfg, memoryPressure), cfg, memoryPressure)
  {
  }

  /** m as the model is sent it when it stands at i of ms: an old result is cut to its first 200 characters. */
  ghost function AsSent(ms: seq<Message>, i: nat, notice: string): Message
    requires i < |ms|
  {
    if ms[i].Tool? && |ms[i].content| > 200 && (exists j :: i < j < |ms| && ms[j].Assistant?)
    then Tool(ms[i].content[..200] + notice, ms[i].toolUseId) else ms[i]
  }

  ghost predicate SentIs(sent: seq<Message>, s: LoopState, cfg: Config, ev: Events) {
    var all := s.prompt.messages + Injected(s, cfg, ev);
    |sent| == |all| && forall i :: 0 <= i < |all| ==> sent[i] == AsSent(all, i, cfg.texts.expired)
  }

  lemma InjectedSays(s: LoopState, cfg: Config, ev: Events)
    ensures Summarized(WithUnread(s, ev), cfg, ev.memoryPressure).prompt.messages == s.prompt.messages + Injected(s, cfg, ev)
  {
    var unread := if s.session.iteration > 0 && s.session.iteration % 5 == 0 && ev.unread.Some? then [User(ev.unread.value)] else [];
    var s1 := WithUnread(s, ev);
    assert s1.prompt.messages == s.prompt.messages + unread;
    assert s1.prompt.sessionStart == s.prompt.sessionStart;
  }

  /** The model is sent every message of the prompt and what is put behind them, old results cut. */
  lemma SentSays(s: LoopState, cfg: Config, ev: Events)
    ensures SentIs(AtCall(s, cfg, ev).prompt.messages, s, cfg, ev)
    ensures Summarized(WithUnread(s, ev), cfg, ev.memoryPressure).prompt.messages == s.prompt.messages + Injected(s, cfg, ev)
  {
    var all := s.prompt.messages + Injected(s, cfg, ev);
    var s1 := Summarized(WithUnread(s, ev), cfg, ev.memoryPressure);
    InjectedSays(s, cfg, ev);
    assert s1.prompt.messages == all;
    forall i | 0 <= i < |all| ensures Expired(all, cfg.texts.expired)[i] == AsSent(all, i, cfg.texts.expired) {
      ExpiryShortensOldResults(all, cfg.texts.expired, i);
    }
  }

  // ----- A whole iteration -----

  /** The session when the model, sent these messages, has given this reply. */
  ghost function Heard(s: LoopState, sent: seq<Message>, reply: Reply): LoopState {
    LoopState(Prompt(sent + [Assistant(reply.content, reply.calls)], s.prompt.sessionStart, 0), s.session)
  }

  /** after and end are what a reply with calls leads to: its dispatch, told call by call where no compaction succeeds. */
  ghost predicate RepliedSays(heard: LoopState, after: LoopState, calls: seq<ToolCall>, cfg: Config, ev: Events, end: Option<string>) {
    (NoCompaction(RegularCalls(calls), ToolsFor(heard, calls, cfg), ev) ==> DispatchSaid(heard, after, calls, cfg, ev))
    && after.session.stage == StageOf(heard.session, calls, cfg)
    && end == if EndCalls(calls) != [] && RegularCalls(calls) == [] then Some("normal_end") else None
  }

  /**
   * An interrupted iteration changes nothing, a gate ends it before the call, and otherwise the model is sent the prompt with
   * what is put behind it. Without a reply the session is over, and so it is with a reply that calls nothing; with one that
   * does, its calls are dispatched.
   */
  ghost predicate IterationSaid(s: LoopState, cfg: Config, ev: Events, after: LoopState, sent: Option<seq<Message>>, end: Option<string>) {
    if ev.interrupted then after == s && sent == None && end == Some("interrupted")
    else if ev.gate.Some? then
      sent == None && end == ev.gate && after.prompt.messages == s.prompt.messages + Injected(s, cfg, ev)
    else sent.Some? && SentIs(sent.value, s, cfg, ev) && match ev.reply
      case None => end == Some("error") && after.prompt.messages == sent.value
      case Some(reply) =>
        after.session.iteration == s.session.iteration + 1
        && if reply.calls == [] then end == Some("normal_end") && after.prompt.messages == sent.value + [Assistant(reply.content, [])]
           else RepliedSays(Heard(s, sent.value, reply), after, reply.calls, cfg, ev, end)
  }

  lemma IterationSays(s: LoopState, cfg: Config, ev: Events)
    ensures var r := Iterated(s, cfg, ev); IterationSaid(s, cfg, ev, r.state, r.sent, r.end)
  {
    hide SentIs, Injected, RepliedSays, Expired, Dispatched;
    SentSays(s, cfg, ev);
    if !ev.interrupted && ev.gate.None? && ev.reply.Some? {
      AtCallSession(s, cfg, ev);
      if ev.reply.value.calls != [] { RepliedIs(s, cfg, ev); }
    }
  }

  lemma RepliedIs(s: LoopState, cfg: Config, ev: Events)
    requires ev.reply.Some?
    ensures var s2, calls := Replied(s, cfg, ev), ev.reply.value.calls;
            var (after, end) := Dispatched(s2, calls, cfg, ev);
            after.session.iteration == s.session.iteration + 1
            && RepliedSays(Heard(s, AtCall(s, cfg, ev).prompt.messages, ev.reply.value), after, calls, cfg, ev, end)
  {
    AtCallSession(s, cfg, ev);
    hide AtCall, Dispatched, DispatchSaid, NoCompaction;
    var calls := ev.reply.value.calls;
    var s2, heard := Replied(s, cfg, ev), Heard(s, AtCall(s, cfg, ev).prompt.messages, ev.reply.value);
    DispatchKeepsStage(s2, calls, cfg, ev);
    SameDispatch(s2, heard, Dispatched(s2, calls, cfg, ev).0, calls, cfg, ev);
  }

  lemma AtCallSession(s: LoopState, cfg: Config, ev: Events)
    ensures AtCall(s, cfg, ev).session.iteration == s.session.iteration && AtCall(s, cfg, ev).session.stage == s.session.stage
    ensures AtCall(s, cfg, ev).prompt.sessionStart == s.prompt.sessionStart
  {
  }

  lemma DispatchKeepsStage(s: LoopState, calls: seq<ToolCall>, cfg: Config, ev: Events)
    ensures var (after, end) := Dispatched(s, calls, cfg, ev);
            after.session.stage == StageOf(s.session, calls, cfg) && after.session.iteration == s.session.iteration
            && end == if EndCalls(calls) != [] && RegularCalls(calls) == [] then Some("normal_end") else None
    ensures NoCompaction(RegularCalls(calls), ToolsFor(s, calls, cfg), ev) ==>
              DispatchSaid(s, Dispatched(s, calls, cfg, ev).0, calls, cfg, ev)
  {
    hide AfterBatch, Select, EndWarnings, DispatchSaid, NoCompaction;
    RemainingCalls(s, calls, cfg);
    var s1, rest := Entered(s, calls, cfg), Remaining(s, calls, cfg);
    var s2 := Warned(s1, rest, cfg.texts.endSolo);
    BatchKeepsStage(s2, RegularCalls(rest), Active(cfg, s1.session.stage), ev, cfg.cap);
    BatchKeepsIteration(s2, RegularCalls(rest), Active(cfg, s1.session.stage), ev, cfg.cap);
    if NoCompaction(RegularCalls(calls), ToolsFor(s, calls, cfg), ev) { DispatchResults(s, calls, cfg, ev); }
  }

  /** What a dispatch says depends on the session only through its stage. */
  lemma SameDispatch(s: LoopState, heard: LoopState, after: LoopState, calls: seq<ToolCall>, cfg: Config, ev: Events)
    requires s.prompt == heard.prompt && s.session.stage == heard.session.stage
    ensures DispatchSaid(s, after, calls, cfg, ev) ==> DispatchSaid(heard, after, calls, cfg, ev)
    ensures StageOf(s.session, calls, cfg) == StageOf(heard.session, calls, cfg) && ToolsFor(s, calls, cfg) == ToolsFor(heard, calls, cfg)
  {
    hide Recorded, SoloWarnings, Select;
    if DispatchSaid(s, after, calls, cfg, ev) {
      var t, w :| TransitionResult(t, s, calls, cfg) && SoloWarnings(w, calls, cfg)
        && Recorded(Prompt(s.prompt.messages + t + w, s.prompt.sessionStart, s.prompt.resultChars + ContentChars(t)), after.prompt,
                    RegularCalls(calls), ToolsFor(s, calls, cfg), ev, cfg.cap);
      assert TransitionResult(t, heard, calls, cfg);
    }
  }
}
