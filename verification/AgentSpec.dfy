/** What one iteration of the agent loop does to the prompt and the session, as a function of the environment. */
module AgentSpec {
  import opened Prelude
  import opened Messages
  import opened PromptSpec

  datatype Stage = NoStage | Thinking | Execution

  datatype Session = Session(iteration: nat, memoryInjected: bool, historyInjected: bool, stage: Stage)

  datatype LoopState = LoopState(prompt: Prompt, session: Session)

  /** What the loop is configured with for the whole run. */
  datatype Config = Config(
    cap: Cap,
    sessionBudgetChars: int,
    thinkingEnabled: bool,
    handlers: set<string>,
    thinkingHandlers: set<string>,
    texts: Texts)

  /** The fixed texts the loop puts into the prompt; transitionId answers a thinking_done call that has no id. */
  datatype Texts = Texts(
    memory: string,
    history: string,
    endSolo: string,
    transition: string,
    transitionId: string,
    noSummary: string,
    expired: string)

  /** What running a tool handler comes to. */
  datatype Outcome = Returned(text: string) | Failed(error: string)

  /** What the model, the tools and the outside world answer during one iteration. */
  datatype Events = Events(
    interrupted: bool,
    unread: Option<string>,
    memoryPressure: bool,
    gate: Option<string>,
    reply: Option<Reply>,
    disabled: set<string>,
    refusal: string -> string,
    outcomes: nat -> Outcome)

  datatype Reply = Reply(content: string, calls: seq<ToolCall>)

  const MID_LOOP_MSG_CHECK_INTERVAL: nat := 5
  const MAX_ITERATIONS: nat := 1000
  const DEFAULT_KEEP_RECENT: int := 20
  const END_SOLO_RULE := "end-solo-rule"

  function Select(calls: seq<ToolCall>, pick: ToolCall -> bool): (r: seq<ToolCall>)
    ensures forall tc :: tc in r <==> tc in calls && pick(tc)
  {
    if calls == [] then [] else
      var last := calls[|calls| - 1];
      Select(calls[..|calls| - 1], pick) + if pick(last) then [last] else []
  }

  function ThinkingCalls(calls: seq<ToolCall>): (r: seq<ToolCall>)
    ensures forall tc :: tc in r <==> tc in calls && tc.name == "thinking_done"
  {
    Select(calls, (tc: ToolCall) => tc.name == "thinking_done")
  }

  function EndCalls(calls: seq<ToolCall>): (r: seq<ToolCall>)
    ensures forall tc :: tc in r <==> tc in calls && tc.name == "end"
  {
    Select(calls, (tc: ToolCall) => tc.name == "end")
  }

  function RegularCalls(calls: seq<ToolCall>): (r: seq<ToolCall>)
    ensures forall tc :: tc in r <==> tc in calls && tc.name != "end" && tc.name != "thinking_done"
  {
    Select(calls, (tc: ToolCall) => tc.name != "end" && tc.name != "thinking_done")
  }

  function OtherCalls(calls: seq<ToolCall>): (r: seq<ToolCall>)
    ensures forall tc :: tc in r <==> tc in calls && tc.name != "thinking_done"
  {
    Select(calls, (tc: ToolCall) => tc.name != "thinking_done")
  }

  // ----- One tool -----

  /** What the executor ends with: disabled and unknown tools are refused before any handler runs. */
  function Effective(tc: ToolCall, active: set<string>, ev: Events, k: nat): Outcome {
    if tc.name in ev.disabled || tc.name !in active then Failed(ev.refusal(tc.name)) else ev.outcomes(k)
  }

  function KeepRecent(tc: ToolCall): int {
    if tc.input.keepRecent.Some? then tc.input.keepRecent.value else DEFAULT_KEEP_RECENT
  }

  predicate Compacts(tc: ToolCall, o: Outcome) {
    o.Returned? && tc.name == "compact_history"
  }

  function ResultText(o: Outcome): string {
    if o.Returned? then TruncateToolOutput(o.text) else o.error
  }

  ghost function AfterTool(s: LoopState, tc: ToolCall, o: Outcome, cap: Cap): LoopState {
    var p := WithResult(s.prompt, ResultText(o), tc.id, cap);
    if Compacts(tc, o) then LoopState(Compacted(p, KeepRecent(tc)), s.session.(historyInjected := false))
    else if o.Returned? && tc.name == "update_memory" then LoopState(p, s.session.(memoryInjected := false))
    else LoopState(p, s.session)
  }

  ghost function AfterBatch(s: LoopState, calls: seq<ToolCall>, active: set<string>, ev: Events, cap: Cap): LoopState {
    if calls == [] then s else
      var n := |calls| - 1;
      AfterTool(AfterBatch(s, calls[..n], active, ev, cap), calls[n], Effective(calls[n], active, ev, n), cap)
  }

  /** Some call of the batch is a compact_history that succeeds. */
  ghost predicate BatchCompacts(calls: seq<ToolCall>, active: set<string>, ev: Events) {
    exists k :: 0 <= k < |calls| && Compacts(calls[k], Effective(calls[k], active, ev, k))
  }

  function Active(cfg: Config, stage: Stage): set<string> {
    if cfg.thinkingEnabled && stage == Thinking then cfg.thinkingHandlers else cfg.handlers
  }

  // ----- Dispatch -----

  function WarningId(ec: ToolCall): string {
    if ec.id != "" then ec.id else END_SOLO_RULE
  }

  function EndWarnings(ends: seq<ToolCall>, text: string): (r: seq<Message>)
    ensures |r| == |ends|
  {
    seq(|ends|, i requires 0 <= i < |ends| => Tool(text, WarningId(ends[i])))
  }

  ghost predicate Transitions(cfg: Config, s: Session, calls: seq<ToolCall>) {
    cfg.thinkingEnabled && s.stage == Thinking && ThinkingCalls(calls) != []
  }

  function TransitionText(texts: Texts, td: ToolCall): string {
    texts.transition + if td.input.summary.Some? then td.input.summary.value else texts.noSummary
  }

  function TransitionId(texts: Texts, td: ToolCall): string {
    if td.id != "" then td.id else texts.transitionId
  }

  ghost function AfterTransition(s: LoopState, td: ToolCall, cfg: Config): LoopState {
    LoopState(WithResult(s.prompt, TransitionText(cfg.texts, td), TransitionId(cfg.texts, td), cfg.cap), s.session.(stage := Execution))
  }

  /** The state and the calls that are left once a thinking_done call has been dealt with. */
  ghost function Entered(s: LoopState, calls: seq<ToolCall>, cfg: Config): LoopState {
    if Transitions(cfg, s.session, calls) then AfterTransition(s, ThinkingCalls(calls)[0], cfg) else s
  }

  ghost function Remaining(s: LoopState, calls: seq<ToolCall>, cfg: Config): seq<ToolCall> {
    if Transitions(cfg, s.session, calls) then OtherCalls(calls) else calls
  }

  ghost function Warned(s: LoopState, calls: seq<ToolCall>, text: string): LoopState {
    if EndCalls(calls) != [] && RegularCalls(calls) != []
    then s.(prompt := s.prompt.(messages := s.prompt.messages + EndWarnings(EndCalls(calls), text))) else s
  }

  /** The dispatch of a response: the new state, and the end reason if the session is over. */
  ghost function Dispatched(s: LoopState, calls: seq<ToolCall>, cfg: Config, ev: Events): (LoopState, Option<string>) {
    var s1 := Entered(s, calls, cfg);
    var rest := Remaining(s, calls, cfg);
    var s2 := Warned(s1, rest, cfg.texts.endSolo);
    var s3 := AfterBatch(s2, RegularCalls(rest), Active(cfg, s1.session.stage), ev, cfg.cap);
    (s3, if EndCalls(rest) != [] && RegularCalls(rest) == [] then Some("normal_end") else None)
  }

  // ----- One iteration -----

  function ContentChars(ms: seq<Message>): nat {
    if ms == [] then 0 else ContentChars(ms[..|ms| - 1]) + |ms[|ms| - 1].content|
  }

  /** Whether the current session fills 70% of its budget. */
  function HistoryPressure(p: Prompt, budget: int): bool {
    budget > 0 && 10 * ContentChars(if p.sessionStart <= |p.messages| then p.messages[p.sessionStart..] else []) >= 7 * budget
  }

  ghost function Summarized(s: LoopState, cfg: Config, memoryPressure: bool): LoopState {
    var historyPressure := HistoryPressure(s.prompt, cfg.sessionBudgetChars);
    var s1 := if memoryPressure && !s.session.memoryInjected
              then LoopState(Appended(s.prompt, User(cfg.texts.memory)), s.session.(memoryInjected := true)) else s;
    if historyPressure && !s1.session.historyInjected
    then LoopState(Appended(s1.prompt, User(cfg.texts.history)), s1.session.(historyInjected := true)) else s1
  }

  ghost function WithUnread(s: LoopState, ev: Events): LoopState {
    if s.session.iteration > 0 && s.session.iteration % MID_LOOP_MSG_CHECK_INTERVAL == 0 && ev.unread.Some?
    then s.(prompt := Appended(s.prompt, User(ev.unread.value))) else s
  }

  /** The messages the model would be called with. */
  ghost function AtCall(s: LoopState, cfg: Config, ev: Events): LoopState {
    var s1 := Summarized(WithUnread(s, ev), cfg, ev.memoryPressure);
    s1.(prompt := s1.prompt.(messages := Expired(s1.prompt.messages, cfg.texts.expired)))
  }

  datatype StepResult = StepResult(state: LoopState, sent: Option<seq<Message>>, end: Option<string>)

  /** State before the dispatch of a reply. */
  ghost function Replied(s: LoopState, cfg: Config, ev: Events): LoopState
    requires ev.reply.Some?
  {
    var s1 := AtCall(s, cfg, ev);
    LoopState(WithAssistant(s1.prompt, ev.reply.value.content, ev.reply.value.calls),
              s1.session.(iteration := s1.session.iteration + 1))
  }

  ghost function Iterated(s: LoopState, cfg: Config, ev: Events): StepResult {
    if ev.interrupted then StepResult(s, None, Some("interrupted"))
    else if ev.gate.Some? then StepResult(Summarized(WithUnread(s, ev), cfg, ev.memoryPressure), None, ev.gate)
    else
      var s1 := AtCall(s, cfg, ev);
      var sent := Some(s1.prompt.messages);
      if ev.reply.None? then StepResult(s1, sent, Some("error"))
      else
        var s2 := Replied(s, cfg, ev);
        if ev.reply.value.calls == [] then StepResult(s2, sent, Some("normal_end"))
        else
          var (s3, end) := Dispatched(s2, ev.reply.value.calls, cfg, ev);
          StepResult(s3, sent, end)
  }

  // ----- A whole run -----

  /** What the session was, after n further iterations none of which ended it. */
  ghost function After(s: LoopState, cfg: Config, world: nat -> Events, n: nat): LoopState {
    if n == 0 then s else Iterated(After(s, cfg, world, n - 1), cfg, world(n - 1)).state
  }

  /** Iteration n is reached: none before it ended the session. */
  ghost predicate Reached(s: LoopState, cfg: Config, world: nat -> Events, n: nat) {
    n == 0 || (Reached(s, cfg, world, n - 1) && Iterated(After(s, cfg, world, n - 1), cfg, world(n - 1)).end == None)
  }

  /** The prompts the first n iterations sent to the model, in order. */
  ghost function Sent(s: LoopState, cfg: Config, world: nat -> Events, n: nat): seq<seq<Message>> {
    if n == 0 then [] else
      var step := Iterated(After(s, cfg, world, n - 1), cfg, world(n - 1));
      Sent(s, cfg, world, n - 1) + if step.sent.Some? then [step.sent.value] else []
  }
}
