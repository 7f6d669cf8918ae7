/** Reloading an agent's messages from the database: PromptAssembly.load_history up to the repair. */
module History {
  import opened Messages
  import opened Repair
  import opened PromptSpec

  datatype Role = UserRow | AssistantRow | ToolRow

  /** A persisted message: its session, its saved tool calls (assistant rows) and its saved result id (tool rows). */
  datatype Row = Row(session: string, role: Role, content: string, savedCalls: seq<ToolCall>, savedId: string)

  const LEGACY_NAME := "execute_command E2B"

  function Renamed(tc: ToolCall): ToolCall {
    if tc.name == LEGACY_NAME then tc.(name := "execute_command") else tc
  }

  /** A saved call survives reloading if it has an id and its current name is one the agent can still use. */
  predicate Restorable(tc: ToolCall, known: set<string>) {
    tc.id != "" && Renamed(tc).name != "" && (Renamed(tc).name in known || Renamed(tc).name in {"end", "thinking_done"})
  }

  function RestoredCalls(saved: seq<ToolCall>, known: set<string>): seq<ToolCall> {
    if saved == [] then [] else
      var last := saved[|saved| - 1];
      RestoredCalls(saved[..|saved| - 1], known) + if Restorable(last, known) then [Renamed(last)] else []
  }

  method BuildHistoryAssistant(h: Row, known: set<string>) returns (m: Message)
    ensures m == Assistant(h.content, RestoredCalls(h.savedCalls, known))
  {
    var normalized := [];
    for k := 0 to |h.savedCalls|
      invariant normalized == RestoredCalls(h.savedCalls[..k], known)
    {
      assert h.savedCalls[..k + 1][..k] == h.savedCalls[..k];
      var tc := h.savedCalls[k];
      var name := if tc.name == LEGACY_NAME then "execute_command" else tc.name;
      if tc.id == "" || name == "" { continue; }
      if name !in known && name !in {"end", "thinking_done"} { continue; }
      normalized := normalized + [ToolCall(tc.id, name, tc.input)];
    }
    assert h.savedCalls[..|h.savedCalls|] == h.savedCalls;
    m := Assistant(h.content, normalized);
  }

  function JoinNames(calls: seq<ToolCall>): string {
    if calls == [] then ""
    else if |calls| == 1 then calls[0].name
    else calls[0].name + ", " + JoinNames(calls[1..])
  }

  /** The text of a past assistant turn, with its calls reduced to a remark. */
  function SummarizedContent(content: string, calls: seq<ToolCall>): string {
    if calls == [] then content else
      var remark := "[Called tools: " + JoinNames(calls) + " \U{2014} results truncated from history]";
      if content != "" then content + "\n" + remark else remark
  }

  function Separator(session: string): Message {
    User("--- Session " + (if |session| <= 8 then session else session[..8]) + " ---")
  }

  const PAST_NOTE := User("[Past session tool results are fully truncated. Use read_history(session_id=...) to view them if needed.]")

  ghost function PastMessage(h: Row, known: set<string>): seq<Message> {
    match h.role
    case UserRow => [User(h.content)]
    case AssistantRow => [Assistant(SummarizedContent(h.content, RestoredCalls(h.savedCalls, known)), [])]
    case ToolRow => []
  }

  ghost function PastMessages(rows: seq<Row>, known: set<string>): seq<Message> {
    if rows == [] then [] else
      var n := |rows| - 1;
      PastMessages(rows[..n], known)
      + (if n == 0 || rows[n].session != rows[n - 1].session then [Separator(rows[n].session)] else [])
      + PastMessage(rows[n], known)
  }

  ghost function CurrentMessage(h: Row, known: set<string>): Message {
    match h.role
    case UserRow => User(h.content)
    case AssistantRow => Assistant(h.content, RestoredCalls(h.savedCalls, known))
    case ToolRow => Tool(h.content, h.savedId)
  }

  ghost function CurrentMessages(rows: seq<Row>, known: set<string>): seq<Message> {
    seq(|rows|, i requires 0 <= i < |rows| => CurrentMessage(rows[i], known))
  }

  method BuildPastTurn(h: Row, known: set<string>) returns (turn: seq<Message>)
    ensures turn == PastMessage(h, known)
  {
    match h.role
    case UserRow => turn := [User(h.content)];
    case AssistantRow =>
      var m := BuildHistoryAssistant(h, known);
      turn := [Assistant(SummarizedContent(m.content, m.calls), [])];
    case ToolRow => turn := [];
  }

  method BuildPast(rows: seq<Row>, known: set<string>) returns (past: seq<Message>)
    ensures past == PastMessages(rows, known)
  {
    hide PastMessage, Separator;
    past := [];
    for i := 0 to |rows|
      invariant past == PastMessages(rows[..i], known)
    {
      assert rows[..i + 1][..i] == rows[..i];
      var separator := if i == 0 || rows[i].session != rows[i - 1].session then [Separator(rows[i].session)] else [];
      var turn := BuildPastTurn(rows[i], known);
      past := past + separator + turn;
    }
    assert rows[..|rows|] == rows;
  }

  method BuildCurrent(rows: seq<Row>, known: set<string>) returns (current: seq<Message>)
    ensures current == CurrentMessages(rows, known)
  {
    current := [];
    for i := 0 to |rows|
      invariant current == CurrentMessages(rows[..i], known)
    {
      var h := rows[i];
      match h.role
      case UserRow => current := current + [User(h.content)];
      case AssistantRow =>
        var m := BuildHistoryAssistant(h, known);
        current := current + [m];
      case ToolRow => current := current + [Tool(h.content, h.savedId)];
    }
    assert rows[..|rows|] == rows;
  }

  ghost function NoteIf(past: seq<Message>): seq<Message> {
    if past == [] then [] else [PAST_NOTE]
  }

  ghost function Loaded(p: Prompt, past: seq<Row>, current: seq<Row>, incoming: string, known: set<string>): Prompt {
    var older := PastMessages(past, known);
    var front := p.messages + older + NoteIf(older);
    var all := front + Repaired(CurrentMessages(current, known));
    p.(messages := if incoming != "" then all + [User(incoming)] else all, sessionStart := |front|)
  }

  lemma {:induction false} PastAreTurns(rows: seq<Row>, known: set<string>, m: Message)
    requires m in PastMessages(rows, known)
    ensures CallsOf(m) == [] && !m.Tool?
  {
    var n := |rows| - 1;
    if m in PastMessages(rows[..n], known) {
      PastAreTurns(rows[..n], known, m);
    }
  }

  lemma PastIsAnswered(rows: seq<Row>, known: set<string>)
    ensures Answered(PastMessages(rows, known))
  {
    forall m | m in PastMessages(rows, known) ensures CallsOf(m) == [] {
      PastAreTurns(rows, known, m);
    }
  }

  /**
   * Whatever rows survive in the database, loading them into an answered prompt gives an answered prompt: past
   * turns lose their calls and the current session is repaired.
   */
  lemma LoadAnswers(p: Prompt, past: seq<Row>, current: seq<Row>, incoming: string, known: set<string>)
    requires Answered(p.messages)
    ensures Answered(Loaded(p, past, current, incoming, known).messages)
  {
    var older := PastMessages(past, known);
    var front := p.messages + older + NoteIf(older);
    var session := Repaired(CurrentMessages(current, known));
    PastIsAnswered(past, known);
    AnsweredConcat(p.messages, older);
    AnsweredUser(p.messages + older, PAST_NOTE);
    assert NoteIf(older) == [] ==> front == p.messages + older;
    RepairAnswers(CurrentMessages(current, known));
    AnsweredConcat(front, session);
    AnsweredUser(front + session, User(incoming));
  }
}
