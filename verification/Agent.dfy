/** The agent loop itself: methods over a live prompt, each proved against the value semantics in AgentSpec. */
module AgentModule {
  import opened Prelude
  import opened Messages
  import opened PromptSpec
  import opened History
  import opened AgentSpec
  import opened PromptAssemblyModule
  import AgentSafety
  import opened AgentResults

  class Agent {
    const cfg: Config
    const prompt: PromptAssembly
    var iteration: nat
    var memoryInjected: bool
    var historyInjected: bool
    var stage: Stage

    ghost predicate Valid()
      reads this, prompt
    {
      cfg.cap == prompt.Allowance() && cfg.sessionBudgetChars == prompt.sessionBudgetChars
    }

    ghost function State(): LoopState
      reads this, prompt
    {
      LoopState(prompt.State(), Session(iteration, memoryInjected, historyInjected, stage))
    }

    /** A session starts on a freshly loaded prompt, in the thinking stage if thinking is enabled. */
    constructor (cfg: Config, prompt: PromptAssembly)
      requires cfg.cap == prompt.Allowance() && cfg.sessionBudgetChars == prompt.sessionBudgetChars
      ensures Valid() && this.cfg == cfg && this.prompt == prompt
      ensures State() == LoopState(prompt.State(), Session(0, false, false, AgentSafety.InitialStage(cfg)))
    {
      this.cfg, this.prompt := cfg, prompt;
      iteration, memoryInjected, historyInjected := 0, false, false;
      stage := if cfg.thinkingEnabled then Thinking else NoStage;
    }

    method ExpirePreviousToolResults()
      requires Valid()
      modifies prompt
      ensures State() == old(State()).(prompt := old(prompt.State()).(messages := Expired(old(prompt.messages), cfg.texts.expired)))
    {
      var last := LastAssistant(prompt.messages);
      if last < 0 {
        assert Expired(prompt.messages, cfg.texts.expired) == prompt.messages;
        return;
      }
      ghost var before := prompt.messages;
      for i := 0 to last
        invariant |prompt.messages| == |before|
        invariant prompt.sessionStart == old(prompt.sessionStart) && prompt.resultChars == old(prompt.resultChars)
        invariant forall j :: 0 <= j < i ==> prompt.messages[j] == ExpireOne(before[j], cfg.texts.expired)
        invariant forall j :: i <= j < |before| ==> prompt.messages[j] == before[j]
      {
        var m := prompt.messages[i];
        if m.Tool? {
          var truncated := TruncateForHistory(m.content, cfg.texts.expired);
          if truncated != m.content {
            prompt.messages := prompt.messages[i := Tool(truncated, m.toolUseId)];
          }
        }
      }
      assert prompt.messages == Expired(before, cfg.texts.expired);
    }

    method CheckAndInjectSummarization(memoryPressure: bool)
      requires Valid()
      modifies this, prompt
      ensures State() == Summarized(old(State()), cfg, memoryPressure)
      ensures Nudged(old(State()), State(), cfg, memoryPressure)
    {
      NudgedBy(State(), cfg, memoryPressure);
      hide Nudged;
      var historyPressure := HistoryPressure(Prompt(prompt.messages, prompt.sessionStart, prompt.resultChars), cfg.sessionBudgetChars);
      if memoryPressure && !memoryInjected {
        prompt.Append(User(cfg.texts.memory));
        memoryInjected := true;
      }
      if historyPressure && !historyInjected {
        prompt.Append(User(cfg.texts.history));
        historyInjected := true;
      }
    }

    method ExecuteTool(tc: ToolCall, o: Outcome)
      requires Valid()
      modifies this, prompt
      ensures State() == AfterTool(old(State()), tc, o, cfg.cap) && stage == old(stage)
    {
      hide Enforced, Compacted;
      match o
      case Failed(error) =>
        prompt.AppendToolResult(error, tc.id);
      case Returned(text) =>
        prompt.AppendToolResult(TruncateToolOutput(text), tc.id);
        if tc.name == "update_memory" {
          memoryInjected := false;
        }
        if tc.name == "compact_history" {
          prompt.CompactMessages(KeepRecent(tc));
          historyInjected := false;
        }
    }

    /** Each call's result is that call's own: refusal, error or output, as far as the allowance lets it in. */
    method ExecuteToolBatch(calls: seq<ToolCall>, ev: Events)
      requires Valid()
      modifies this, prompt
      ensures State() == AfterBatch(old(State()), calls, Active(cfg, old(stage)), ev, cfg.cap)
      ensures stage == old(stage)
      ensures var active := if cfg.thinkingEnabled && old(stage) == Thinking then cfg.thinkingHandlers else cfg.handlers;
              NoCompaction(calls, active, ev) ==>
                Recorded(old(prompt.State()), prompt.State(), calls, active, ev, cfg.cap)
                && memoryInjected == (old(memoryInjected) && !UpdatesMemory(calls, active, ev))
                && historyInjected == old(historyInjected)
    {
      hide AfterTool, Effective, Recorded, UpdatesMemory;
      var active := Active(cfg, stage);
      if NoCompaction(calls, active, ev) { BatchResults(State(), calls, active, ev, cfg.cap); }
      for k := 0 to |calls|
        invariant State() == AfterBatch(old(State()), calls[..k], active, ev, cfg.cap)
        invariant stage == old(stage)
      {
        assert calls[..k + 1][..k] == calls[..k];
        ExecuteTool(calls[k], Effective(calls[k], active, ev, k));
      }
      assert calls[..|calls|] == calls;
    }

    method HandleThinkingTransition(td: ToolCall)
      requires Valid()
      modifies this, prompt
      ensures State() == AfterTransition(old(State()), td, cfg)
      ensures stage == Execution && iteration == old(iteration)
      ensures IssuedIds(prompt.messages) == IssuedIds(old(prompt.messages))
      ensures ResolvedIds(prompt.messages)
           == ResolvedIds(old(prompt.messages)) + AgentSafety.NonEmpty(TransitionId(cfg.texts, td))
      ensures var summary := if td.input.summary.Some? then td.input.summary.value else cfg.texts.noSummary;
              |prompt.messages| == |old(prompt.messages)| + 1 && old(prompt.messages) <= prompt.messages
              && var m := prompt.messages[|old(prompt.messages)|];
                 m == Tool(m.content, if td.id != "" then td.id else cfg.texts.transitionId)
                 && Fits(m.content, cfg.texts.transition + summary, cfg.cap.chars - old(prompt.resultChars), cfg.cap)
    {
      assert Fits(Enforced(TransitionText(cfg.texts, td), cfg.cap, prompt.resultChars), TransitionText(cfg.texts, td),
                  cfg.cap.chars - prompt.resultChars, cfg.cap);
      var id := if td.id != "" then td.id else cfg.texts.transitionId;
      prompt.AppendToolResult(TransitionText(cfg.texts, td), id);
      stage := Execution;
    }

    method HandleEndSoloWarning(ends: seq<ToolCall>)
      requires Valid()
      modifies this, prompt
      ensures |prompt.messages| == |old(prompt.messages)| + |ends| && old(prompt.messages) <= prompt.messages
      ensures forall k :: 0 <= k < |ends| ==>
                prompt.messages[|old(prompt.messages)| + k] == Tool(cfg.texts.endSolo, if ends[k].id != "" then ends[k].id else "end-solo-rule")
      ensures State() == old(State()).(prompt := old(prompt.State()).(messages := old(prompt.messages) + EndWarnings(ends, cfg.texts.endSolo)))
    {
      for k := 0 to |ends|
        invariant State() == old(State()).(prompt := old(prompt.State()).(
                    messages := old(prompt.messages) + EndWarnings(ends[..k], cfg.texts.endSolo)))
      {
        var id := if ends[k].id != "" then ends[k].id else END_SOLO_RULE;
        prompt.Append(Tool(cfg.texts.endSolo, id));
        assert EndWarnings(ends[..k + 1], cfg.texts.endSolo) == EndWarnings(ends[..k], cfg.texts.endSolo) + [Tool(cfg.texts.endSolo, id)];
      }
      assert ends[..|ends|] == ends;
    }

    method DispatchToolCalls(calls: seq<ToolCall>, ev: Events) returns (end: Option<string>)
      requires Valid()
      modifies this, prompt
      ensures (State(), end) == Dispatched(old(State()), calls, cfg, ev)
      ensures NoCompaction(RegularCalls(calls), ToolsFor(old(State()), calls, cfg), ev) ==>
                DispatchSaid(old(State()), State(), calls, cfg, ev)
      ensures end == if EndCalls(calls) != [] && RegularCalls(calls) == [] then Some("normal_end") else None
    {
      hide AfterBatch, AfterTool, AfterTransition, EndWarnings, NoCompaction, DispatchSaid, ToolsFor, Recorded, UpdatesMemory, Fits, Select;
      AgentSafety.RemainingCalls(State(), calls, cfg);
      if NoCompaction(RegularCalls(calls), ToolsFor(State(), calls, cfg), ev) { DispatchResults(State(), calls, cfg, ev); }
      var rest := calls;
      var thinking := ThinkingCalls(calls);
      if thinking != [] && cfg.thinkingEnabled && stage == Thinking {
        HandleThinkingTransition(thinking[0]);
        rest := OtherCalls(calls);
        if rest == [] {
          NothingLeft(State(), Active(cfg, stage), ev, cfg.cap);
          return None;
        }
      }
      var ends := EndCalls(rest);
      var regular := RegularCalls(rest);
      if ends != [] && regular != [] {
        HandleEndSoloWarning(ends);
      }
      if regular != [] {
        ExecuteToolBatch(regular, ev);
      } else {
        NothingLeft(State(), Active(cfg, stage), ev, cfg.cap);
      }
      end := if ends != [] && regular == [] then Some("normal_end") else None;
    }

    lemma NothingLeft(s: LoopState, active: set<string>, ev: Events, cap: Cap)
      ensures AfterBatch(s, [], active, ev, cap) == s
      ensures RegularCalls([]) == [] && EndCalls([]) == []
    {
    }

    /** One iteration; `sent` is the message list the model was called with, if it was called. */
    method RunIteration(ev: Events) returns (sent: Option<seq<Message>>, end: Option<string>)
      requires Valid()
      modifies this, prompt
      ensures StepResult(State(), sent, end) == Iterated(old(State()), cfg, ev)
      ensures IterationSaid(old(State()), cfg, ev, State(), sent, end)
    {
      IterationSays(State(), cfg, ev);
      hide Dispatched, Expired, Summarized, IterationSaid, Nudged, DispatchSaid, NoCompaction, ToolsFor, RegularCalls, EndCalls;
      hide CallIds, Dangling;
      if ev.interrupted {
        return None, Some("interrupted");
      }
      if iteration > 0 && iteration % MID_LOOP_MSG_CHECK_INTERVAL == 0 {
        if ev.unread.Some? {
          prompt.Append(User(ev.unread.value));
        }
      }
      CheckAndInjectSummarization(ev.memoryPressure);
      if ev.gate.Some? {
        return None, ev.gate;
      }
      ExpirePreviousToolResults();
      sent := Some(prompt.messages);
      if ev.reply.None? {
        return sent, Some("error");
      }
      iteration := iteration + 1;
      prompt.AppendAssistant(ev.reply.value.content, ev.reply.value.calls);
      if ev.reply.value.calls == [] {
        return sent, Some("normal_end");
      }
      end := DispatchToolCalls(ev.reply.value.calls, ev);
    }

    /**
     * The wake-to-END loop. The prompts it sends are those of the iterations it runs, and if the model keeps its
     * stage discipline each of them has a result for every tool call.
     */
    method Run(world: nat -> Events) returns (reason: string, sent: seq<seq<Message>>, ghost steps: nat)
      requires Valid() && iteration == 0 && stage == AgentSafety.InitialStage(cfg)
      modifies this, prompt
      ensures var start := Summarized(old(State()), cfg, world(0).memoryPressure);
              steps <= MAX_ITERATIONS && (steps > 0 ==> Reached(start, cfg, world, steps - 1))
              && State() == After(start, cfg, world, steps) && sent == Sent(start, cfg, world, steps)
      ensures reason == "max_iterations" || (steps > 0 &&
                Iterated(After(Summarized(old(State()), cfg, world(0).memoryPressure), cfg, world, steps - 1),
                         cfg, world(steps - 1)).end == Some(reason))
      ensures Answered(old(prompt.messages)) && AgentSafety.Disciplined(cfg, world) ==>
                forall k :: 0 <= k < |sent| ==> Answered(sent[k])
    {
      hide Iterated, Summarized, Answered, AgentSafety.Disciplined, IterationSaid, Nudged;
      ghost var start := Summarized(State(), cfg, world(0).memoryPressure);
      AgentSafety.StartOfRun(State(), cfg, world(0).memoryPressure);
      CheckAndInjectSummarization(world(0).memoryPressure);
      sent := [];
      while iteration < MAX_ITERATIONS
        invariant iteration <= MAX_ITERATIONS && Valid()
        invariant State() == After(start, cfg, world, iteration)
        invariant sent == Sent(start, cfg, world, iteration)
        invariant Reached(start, cfg, world, iteration)
      {
        steps := iteration + 1;
        ghost var before := State();
        var called, end := RunIteration(world(iteration));
        if called.Some? {
          sent := sent + [called.value];
        }
        if end.Some? {
          AgentSafety.RunIsSafe(start, cfg, world, steps);
          return end.value, sent, steps;
        }
        AgentSafety.IterationCount(before, cfg, world(steps - 1));
      }
      reason := "max_iterations";
      steps := iteration;
      AgentSafety.RunIsSafe(start, cfg, world, steps);
    }
  }
}
