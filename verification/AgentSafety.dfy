/** The tool-call protocol of the agent loop: at every model call, every tool call in the prompt has a result. */
module AgentSafety {
  import opened Prelude
  import opened Messages
  import opened PromptSpec
  import opened AgentSpec

  lemma {:induction false} SelectTwice(calls: seq<ToolCall>, wide: ToolCall -> bool, narrow: ToolCall -> bool)
    requires forall tc :: narrow(tc) ==> wide(tc)
    ensures Select(Select(calls, wide), narrow) == Select(calls, narrow)
  {
    if calls != [] {
      var n := |calls| - 1;
      SelectTwice(calls[..n], wide, narrow);
      var inner := Select(calls[..n], wide);
      if wide(calls[n]) {
        assert (inner + [calls[n]])[..|inner|] == inner;
      } else {
        assert Select(calls, wide) == inner;
      }
    }
  }

  /** Taking out the thinking_done calls leaves the same regular and END calls, in the same order. */
  lemma RemainingCalls(s: LoopState, calls: seq<ToolCall>, cfg: Config)
    ensures RegularCalls(Remaining(s, calls, cfg)) == RegularCalls(calls)
    ensures EndCalls(Remaining(s, calls, cfg)) == EndCalls(calls)
  {
    var other := (tc: ToolCall) => tc.name != "thinking_done";
    SelectTwice(calls, other, (tc: ToolCall) => tc.name != "end" && tc.name != "thinking_done");
    SelectTwice(calls, other, (tc: ToolCall) => tc.name == "end");
  }

  // ----- One result, one batch -----

  lemma ResultIds(p: Prompt, text: string, id: string, cap: Cap)
    ensures IssuedIds(WithResult(p, text, id, cap).messages) == IssuedIds(p.messages)
    ensures ResolvedIds(WithResult(p, text, id, cap).messages) == ResolvedIds(p.messages) + if id != "" then {id} else {}
  {
    IdsOfSnoc(p.messages, Tool(Enforced(text, cap, p.resultChars), id));
  }

  /** A batch without compaction answers exactly its own calls. */
  lemma {:induction false} BatchIds(s: LoopState, calls: seq<ToolCall>, active: set<string>, ev: Events, cap: Cap)
    requires !BatchCompacts(calls, active, ev)
    ensures IssuedIds(AfterBatch(s, calls, active, ev, cap).prompt.messages) == IssuedIds(s.prompt.messages)
    ensures ResolvedIds(AfterBatch(s, calls, active, ev, cap).prompt.messages)
            == ResolvedIds(s.prompt.messages) + CallIds(calls)
  {
    hide Effective, ResultText, Compacted;
    if calls != [] {
      var n := |calls| - 1;
      var o := Effective(calls[n], active, ev, n);
      assert !Compacts(calls[n], o);
      assert !BatchCompacts(calls[..n], active, ev) by {
        assert forall k :: 0 <= k < n ==> calls[..n][k] == calls[k];
      }
      BatchIds(s, calls[..n], active, ev, cap);
      assert calls == calls[..n] + [calls[n]];
      CallIdsSnoc(calls[..n], calls[n]);
      ResultIds(AfterBatch(s, calls[..n], active, ev, cap).prompt, ResultText(o), calls[n].id, cap);
    }
  }

  /** A batch with a compaction in it answers everything, calls still to be executed included. */
  lemma {:induction false} BatchWithCompaction(s: LoopState, calls: seq<ToolCall>, active: set<string>, ev: Events, cap: Cap)
    requires BatchCompacts(calls, active, ev)
    ensures Answered(AfterBatch(s, calls, active, ev, cap).prompt.messages)
  {
    hide Effective;
    var n := |calls| - 1;
    var before := AfterBatch(s, calls[..n], active, ev, cap);
    var o := Effective(calls[n], active, ev, n);
    var p := WithResult(before.prompt, ResultText(o), calls[n].id, cap);
    if Compacts(calls[n], o) {
      CompactionAnswers(p, KeepRecent(calls[n]));
    } else {
      var k :| 0 <= k < |calls| && Compacts(calls[k], Effective(calls[k], active, ev, k));
      assert calls[..n][k] == calls[k];
      BatchWithCompaction(s, calls[..n], active, ev, cap);
      ResultIds(before.prompt, ResultText(o), calls[n].id, cap);
    }
  }

  // ----- Dispatch -----

  ghost function WarningIds(ends: seq<ToolCall>): set<string> {
    set tc | tc in ends :: WarningId(tc)
  }

  lemma WarnedIds(s: LoopState, calls: seq<ToolCall>, text: string)
    ensures IssuedIds(Warned(s, calls, text).prompt.messages) == IssuedIds(s.prompt.messages)
    ensures ResolvedIds(Warned(s, calls, text).prompt.messages) == ResolvedIds(s.prompt.messages)
            + if EndCalls(calls) != [] && RegularCalls(calls) != [] then WarningIds(EndCalls(calls)) else {}
  {
    var ends := EndCalls(calls);
    var ws := EndWarnings(ends, text);
    IdsOfConcat(s.prompt.messages, ws);
    assert forall m :: m in ws ==> m.Tool?;
    forall id | id in WarningIds(ends) ensures id in ResolvedIds(ws) {
      var i :| 0 <= i < |ends| && WarningId(ends[i]) == id;
      assert ws[i] in ws;
    }
    forall id | id in ResolvedIds(ws) ensures id in WarningIds(ends) {
      var i :| 0 <= i < |ws| && ws[i].toolUseId == id;
      assert ends[i] in ends;
    }
  }

  function NonEmpty(id: string): set<string> {
    if id != "" then {id} else {}
  }

  /** The ids a dispatch answers when nothing compacts. */
  ghost function HandledIds(s: Session, calls: seq<ToolCall>, cfg: Config): set<string> {
    (if Transitions(cfg, s, calls) then NonEmpty(TransitionId(cfg.texts, ThinkingCalls(calls)[0])) else {})
    + CallIds(RegularCalls(calls))
    + if EndCalls(calls) != [] && RegularCalls(calls) != [] then WarningIds(EndCalls(calls)) else {}
  }

  /** The stage in which the regular calls of a response run. */
  ghost function StageOf(s: Session, calls: seq<ToolCall>, cfg: Config): Stage {
    if Transitions(cfg, s, calls) then Execution else s.stage
  }

  ghost predicate DispatchCompacts(s: Session, calls: seq<ToolCall>, cfg: Config, ev: Events) {
    BatchCompacts(RegularCalls(calls), Active(cfg, StageOf(s, calls, cfg)), ev)
  }

  /** Every thinking_done call of the response is answered now or was before. */
  ghost predicate ThinkingHandled(s: Session, calls: seq<ToolCall>, cfg: Config, resolved: set<string>) {
    forall tc :: tc in ThinkingCalls(calls) && tc.id != "" ==> tc.id in resolved + HandledIds(s, calls, cfg)
  }

  lemma DispatchIds(s: LoopState, calls: seq<ToolCall>, cfg: Config, ev: Events)
    requires !DispatchCompacts(s.session, calls, cfg, ev)
    ensures IssuedIds(Dispatched(s, calls, cfg, ev).0.prompt.messages) == IssuedIds(s.prompt.messages)
    ensures ResolvedIds(Dispatched(s, calls, cfg, ev).0.prompt.messages)
            == ResolvedIds(s.prompt.messages) + HandledIds(s.session, calls, cfg)
  {
    RemainingCalls(s, calls, cfg);
    var s1 := Entered(s, calls, cfg);
    var rest := Remaining(s, calls, cfg);
    if Transitions(cfg, s.session, calls) {
      var td := ThinkingCalls(calls)[0];
      ResultIds(s.prompt, TransitionText(cfg.texts, td), TransitionId(cfg.texts, td), cfg.cap);
    }
    WarnedIds(s1, rest, cfg.texts.endSolo);
    BatchIds(Warned(s1, rest, cfg.texts.endSolo), RegularCalls(rest), Active(cfg, s1.session.stage), ev, cfg.cap);
  }

  /**
   * The exact condition of the protocol. A dispatch that goes on leaves every call answered if and only if a
   * compaction ran in it, or every thinking_done call of the response gets a result: the first one does in the
   * thinking stage, any other only if its id has a result for another reason.
   */
  lemma DispatchAnswers(s: LoopState, before: seq<Message>, content: string, calls: seq<ToolCall>, cfg: Config, ev: Events)
    requires Answered(before) && s.prompt.messages == before + [Assistant(content, calls)]
    requires Dispatched(s, calls, cfg, ev).1 == None
    ensures Answered(Dispatched(s, calls, cfg, ev).0.prompt.messages)
            <==> DispatchCompacts(s.session, calls, cfg, ev)
                 || ThinkingHandled(s.session, calls, cfg, ResolvedIds(before))
  {
    RemainingCalls(s, calls, cfg);
    if DispatchCompacts(s.session, calls, cfg, ev) {
      var s1 := Entered(s, calls, cfg);
      BatchWithCompaction(Warned(s1, Remaining(s, calls, cfg), cfg.texts.endSolo), RegularCalls(calls), Active(cfg, s1.session.stage), ev, cfg.cap);
    } else {
      DispatchIds(s, calls, cfg, ev);
      IdsOfSnoc(before, Assistant(content, calls));
      var handled := HandledIds(s.session, calls, cfg);
      forall tc | tc in calls && tc.id != "" && tc !in ThinkingCalls(calls) ensures tc.id in handled {
        if tc in RegularCalls(calls) {
          assert tc.id in CallIds(RegularCalls(calls));
        } else {
          assert tc in EndCalls(calls) && WarningId(tc) == tc.id;
        }
      }
      forall tc | tc in ThinkingCalls(calls) && tc.id != "" ensures tc.id in CallIds(calls) {}
    }
  }

  // ----- One iteration -----

  lemma AnsweredAtCall(s: LoopState, cfg: Config, ev: Events)
    requires Answered(s.prompt.messages)
    ensures Answered(AtCall(s, cfg, ev).prompt.messages)
    ensures Answered(Summarized(WithUnread(s, ev), cfg, ev.memoryPressure).prompt.messages)
    ensures AtCall(s, cfg, ev).session.stage == s.session.stage
  {
    if ev.unread.Some? { AnsweredUser(s.prompt.messages, User(ev.unread.value)); }
    var s1 := WithUnread(s, ev);
    AnsweredUser(s1.prompt.messages, User(cfg.texts.memory));
    AnsweredUser(s1.prompt.messages, User(cfg.texts.history));
    AnsweredUser(s1.prompt.messages + [User(cfg.texts.memory)], User(cfg.texts.history));
    ExpiryKeepsIds(Summarized(s1, cfg, ev.memoryPressure).prompt.messages, cfg.texts.expired);
  }

  /** The condition above, at the level of one iteration's events. */
  ghost predicate ReplyHandled(s: LoopState, cfg: Config, ev: Events) {
    ev.reply.Some? ==>
      var sent := AtCall(s, cfg, ev);
      DispatchCompacts(sent.session, ev.reply.value.calls, cfg, ev)
      || ThinkingHandled(sent.session, ev.reply.value.calls, cfg, ResolvedIds(sent.prompt.messages))
  }

  /** From an answered prompt, what the model is sent is answered, and an iteration that goes on keeps that exactly when its reply is handled. */
  lemma IterationAnswers(s: LoopState, cfg: Config, ev: Events)
    requires Answered(s.prompt.messages)
    ensures Iterated(s, cfg, ev).sent.Some? ==> Answered(Iterated(s, cfg, ev).sent.value)
    ensures Iterated(s, cfg, ev).end == None ==> (Answered(Iterated(s, cfg, ev).state.prompt.messages) <==> ReplyHandled(s, cfg, ev))
  {
    AnsweredAtCall(s, cfg, ev);
    if Iterated(s, cfg, ev).end == None {
      var sent := AtCall(s, cfg, ev);
      var s2 := Replied(s, cfg, ev);
      var r := ev.reply.value;
      DispatchAnswers(s2, sent.prompt.messages, r.content, r.calls, cfg, ev);
    }
  }

  lemma StartOfRun(s: LoopState, cfg: Config, memoryPressure: bool)
    ensures Answered(s.prompt.messages) ==> Answered(Summarized(s, cfg, memoryPressure).prompt.messages)
    ensures Summarized(s, cfg, memoryPressure).session.stage == s.session.stage
    ensures Summarized(s, cfg, memoryPressure).session.iteration == s.session.iteration
  {
    AnsweredUser(s.prompt.messages, User(cfg.texts.memory));
    AnsweredUser(s.prompt.messages, User(cfg.texts.history));
    AnsweredUser(s.prompt.messages + [User(cfg.texts.memory)], User(cfg.texts.history));
  }

  // ----- Whole runs -----

  /** What the model says about stages over a run: thinking_done at most once, and only if thinking is enabled. */
  ghost predicate Disciplined(cfg: Config, world: nat -> Events) {
    forall n: nat :: world(n).reply.Some? && ThinkingCalls(world(n).reply.value.calls) != [] ==>
      cfg.thinkingEnabled && |ThinkingCalls(world(n).reply.value.calls)| == 1
      && forall i: nat :: i < n && world(i).reply.Some? ==> ThinkingCalls(world(i).reply.value.calls) == []
  }

  ghost predicate SaysThinkingDone(ev: Events) {
    ev.reply.Some? && ThinkingCalls(ev.reply.value.calls) != []
  }

  lemma BatchKeepsIteration(s: LoopState, calls: seq<ToolCall>, active: set<string>, ev: Events, cap: Cap)
    ensures AfterBatch(s, calls, active, ev, cap).session.iteration == s.session.iteration
  {
    hide Effective;
  }

  lemma IterationCount(s: LoopState, cfg: Config, ev: Events)
    requires Iterated(s, cfg, ev).end == None
    ensures Iterated(s, cfg, ev).state.session.iteration == s.session.iteration + 1
  {
    var s2 := Replied(s, cfg, ev);
    var calls := ev.reply.value.calls;
    var s1 := Entered(s2, calls, cfg);
    var rest := Remaining(s2, calls, cfg);
    BatchKeepsIteration(Warned(s1, rest, cfg.texts.endSolo), RegularCalls(rest), Active(cfg, s1.session.stage), ev, cfg.cap);
  }

  lemma BatchKeepsStage(s: LoopState, calls: seq<ToolCall>, active: set<string>, ev: Events, cap: Cap)
    ensures AfterBatch(s, calls, active, ev, cap).session.stage == s.session.stage
  {
    hide Effective;
  }

  lemma IterationStage(s: LoopState, cfg: Config, ev: Events)
    requires Iterated(s, cfg, ev).end == None
    ensures Iterated(s, cfg, ev).state.session.stage
            == if cfg.thinkingEnabled && s.session.stage == Thinking && SaysThinkingDone(ev) then Execution else s.session.stage
  {
    var s2 := Replied(s, cfg, ev);
    var calls := ev.reply.value.calls;
    var s1 := Entered(s2, calls, cfg);
    var rest := Remaining(s2, calls, cfg);
    BatchKeepsStage(Warned(s1, rest, cfg.texts.endSolo), RegularCalls(rest), Active(cfg, s1.session.stage), ev, cfg.cap);
  }

  ghost function InitialStage(cfg: Config): Stage {
    if cfg.thinkingEnabled then Thinking else NoStage
  }

  /** The session is still in the thinking stage if and only if no reply has said thinking_done yet. */
  lemma {:induction false} StageAfter(s: LoopState, cfg: Config, world: nat -> Events, n: nat)
    requires s.session.stage == InitialStage(cfg) && Reached(s, cfg, world, n)
    ensures cfg.thinkingEnabled ==>
              (After(s, cfg, world, n).session.stage == Thinking <==> forall i: nat :: i < n ==> !SaysThinkingDone(world(i)))
  {
    hide Iterated, SaysThinkingDone;
    if n > 0 {
      StageAfter(s, cfg, world, n - 1);
      IterationStage(After(s, cfg, world, n - 1), cfg, world(n - 1));
    }
  }

  /** A disciplined thinking_done comes in the thinking stage, and is the one that gets a result there. */
  lemma LoneThinkingHandled(s: LoopState, cfg: Config, ev: Events)
    requires ev.reply.Some?
    requires SaysThinkingDone(ev) ==> cfg.thinkingEnabled && s.session.stage == Thinking && |ThinkingCalls(ev.reply.value.calls)| == 1
    ensures ReplyHandled(s, cfg, ev)
  {
    hide DispatchCompacts, Iterated;
    var sent := AtCall(s, cfg, ev).session;
    assert sent.stage == s.session.stage;
    var ts := ThinkingCalls(ev.reply.value.calls);
    if ts != [] {
      assert Transitions(cfg, sent, ev.reply.value.calls);
      assert forall tc :: tc in ts ==> tc == ts[0];
    }
  }

  lemma {:induction false} AnsweredAfter(s: LoopState, cfg: Config, world: nat -> Events, n: nat)
    requires Answered(s.prompt.messages) && s.session.stage == InitialStage(cfg)
    requires Disciplined(cfg, world) && Reached(s, cfg, world, n)
    ensures Answered(After(s, cfg, world, n).prompt.messages)
  {
    hide Iterated, ReplyHandled, Answered;
    if n > 0 {
      var before := After(s, cfg, world, n - 1);
      var ev := world(n - 1);
      AnsweredAfter(s, cfg, world, n - 1);
      StageAfter(s, cfg, world, n - 1);
      IterationAnswers(before, cfg, ev);
      if ev.reply.Some? {
        LoneThinkingHandled(before, cfg, ev);
      } else {
        NoReplyEnds(before, cfg, ev);
      }
    }
  }

  lemma NoReplyEnds(s: LoopState, cfg: Config, ev: Events)
    requires ev.reply.None?
    ensures Iterated(s, cfg, ev).end.Some?
  {
  }

  /**
   * Whole-run safety: in every run of any length, through tool failures, END warnings, expiry, injected messages
   * and compactions inside batches, every prompt the model is sent has a result for every tool call that has an
   * id, provided the model says thinking_done at most once and only with thinking enabled.
   */
  lemma {:induction false} EveryPromptAnswered(s: LoopState, cfg: Config, world: nat -> Events, n: nat)
    requires Answered(s.prompt.messages) && s.session.stage == InitialStage(cfg)
    requires Disciplined(cfg, world) && (n > 0 ==> Reached(s, cfg, world, n - 1))
    ensures forall k :: 0 <= k < |Sent(s, cfg, world, n)| ==> Answered(Sent(s, cfg, world, n)[k])
  {
    hide Iterated;
    if n > 0 {
      EveryPromptAnswered(s, cfg, world, n - 1);
      AnsweredAfter(s, cfg, world, n - 1);
      IterationAnswers(After(s, cfg, world, n - 1), cfg, world(n - 1));
    }
  }

  /** The same, as the implication the imperative loop reports. */
  lemma RunIsSafe(s: LoopState, cfg: Config, world: nat -> Events, n: nat)
    requires s.session.stage == InitialStage(cfg) && (n > 0 ==> Reached(s, cfg, world, n - 1))
    ensures Answered(s.prompt.messages) && Disciplined(cfg, world) ==>
              forall k :: 0 <= k < |Sent(s, cfg, world, n)| ==> Answered(Sent(s, cfg, world, n)[k])
  {
    hide Answered, Disciplined, Iterated;
    if Answered(s.prompt.messages) && Disciplined(cfg, world) {
      EveryPromptAnswered(s, cfg, world, n);
    }
  }

  /** What is put into the prompt before a model call issues and answers nothing. */
  lemma AtCallIds(s: LoopState, cfg: Config, ev: Events)
    ensures IssuedIds(AtCall(s, cfg, ev).prompt.messages) == IssuedIds(s.prompt.messages)
    ensures ResolvedIds(AtCall(s, cfg, ev).prompt.messages) == ResolvedIds(s.prompt.messages)
  {
    if ev.unread.Some? { IdsOfSnoc(s.prompt.messages, User(ev.unread.value)); }
    var s1 := WithUnread(s, ev);
    IdsOfSnoc(s1.prompt.messages, User(cfg.texts.memory));
    IdsOfSnoc(s1.prompt.messages, User(cfg.texts.history));
    IdsOfSnoc(s1.prompt.messages + [User(cfg.texts.memory)], User(cfg.texts.history));
    ExpiryKeepsIds(Summarized(s1, cfg, ev.memoryPressure).prompt.messages, cfg.texts.expired);
  }

  lemma LoneCall(td: ToolCall)
    requires td.name == "thinking_done"
    ensures ThinkingCalls([td]) == [td] && RegularCalls([td]) == [] && EndCalls([td]) == []
  {
    SelectOne(td, (tc: ToolCall) => tc.name == "thinking_done");
    SelectOne(td, (tc: ToolCall) => tc.name != "end" && tc.name != "thinking_done");
    SelectOne(td, (tc: ToolCall) => tc.name == "end");
  }

  lemma SelectOne(tc: ToolCall, pick: ToolCall -> bool)
    ensures Select([tc], pick) == if pick(tc) then [tc] else []
  {
    assert [tc][..0] == [];
  }

  /**
   * Without that discipline safety fails: with thinking disabled, from any answered prompt and with any budget, a model
   * that only says thinking_done is called a second time with that call unanswered.
   */
  lemma UndisciplinedRun(s: LoopState, cfg: Config, world: nat -> Events, td: ToolCall)
    requires !cfg.thinkingEnabled && Answered(s.prompt.messages)
    requires td.name == "thinking_done" && td.id != "" && td.id !in ResolvedIds(s.prompt.messages)
    requires forall n: nat :: !world(n).interrupted && world(n).gate.None? && world(n).reply == Some(Reply("", [td]))
    ensures Reached(s, cfg, world, 1) && Iterated(After(s, cfg, world, 1), cfg, world(1)).sent.Some?
    ensures !Answered(Iterated(After(s, cfg, world, 1), cfg, world(1)).sent.value)
  {
    hide AtCall, AfterBatch, Summarized, WithUnread, Expired, RegularCalls, EndCalls, ThinkingCalls;
    LoneCall(td);
    NothingCompacts(s.session, td, cfg, world(0));
    AtCallIds(s, cfg, world(0));
    assert Iterated(s, cfg, world(0)).end == None;
    assert !ThinkingHandled(AtCall(s, cfg, world(0)).session, [td], cfg, ResolvedIds(AtCall(s, cfg, world(0)).prompt.messages)) by {
      assert td in ThinkingCalls([td]);
    }
    NothingCompacts(AtCall(s, cfg, world(0)).session, td, cfg, world(0));
    IterationAnswers(s, cfg, world(0));
    assert After(s, cfg, world, 0) == s;
    AtCallIds(After(s, cfg, world, 1), cfg, world(1));
  }

  lemma NothingCompacts(s: Session, td: ToolCall, cfg: Config, ev: Events)
    requires !cfg.thinkingEnabled && td.name == "thinking_done"
    ensures !DispatchCompacts(s, [td], cfg, ev) && HandledIds(s, [td], cfg) == {}
  {
    LoneCall(td);
    assert CallIds([]) == {};
  }

  // ----- The result budget over an iteration -----

  lemma {:induction false} BatchCharge(s: LoopState, calls: seq<ToolCall>, active: set<string>, ev: Events, cap: Cap, k: nat)
    requires s.prompt.resultChars <= Max(cap.chars, 0) + Notices(cap, k)
    ensures AfterBatch(s, calls, active, ev, cap).prompt.resultChars <= Max(cap.chars, 0) + Notices(cap, k + |calls|)
  {
    if calls != [] {
      BatchCharge(s, calls[..|calls| - 1], active, ev, cap, k);
    }
  }

  /** In one iteration the tool results charge at most the allowance and one notice per result. */
  lemma IterationCharge(s: LoopState, cfg: Config, ev: Events)
    requires ev.reply.Some? && !ev.interrupted && ev.gate.None?
    ensures Iterated(s, cfg, ev).state.prompt.resultChars
            <= Max(cfg.cap.chars, 0) + Notices(cfg.cap, 1 + |RegularCalls(ev.reply.value.calls)|)
  {
    hide AtCall, AfterTool, EndWarnings, RegularCalls, EndCalls, OtherCalls;
    var s2 := Replied(s, cfg, ev);
    var calls := ev.reply.value.calls;
    if calls != [] {
      var s1 := Entered(s2, calls, cfg);
      var rest := Remaining(s2, calls, cfg);
      assert s1.prompt.resultChars <= Max(cfg.cap.chars, 0) + Notices(cfg.cap, 1);
      RemainingCalls(s2, calls, cfg);
      BatchCharge(Warned(s1, rest, cfg.texts.endSolo), RegularCalls(rest), Active(cfg, s1.session.stage), ev, cfg.cap, 1);
    }
  }
}
