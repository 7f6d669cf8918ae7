/** The mutable prompt of one agent session. Every method is proved against the value semantics in PromptSpec. */
module PromptAssemblyModule {
  import opened Messages
  import opened Repair
  import opened PromptSpec
  import opened History
  import opened HistorySafety

  const RESULT_OMITTED := "[tool result omitted \U{2014} iteration tool result budget exhausted]"
  const RESULT_TRUNCATED := "\n[output truncated \U{2014} tool result budget reached]"

  class PromptAssembly {
    const sessionBudgetChars: int
    var messages: seq<Message>
    var sessionStart: nat
    var resultChars: nat

    ghost function State(): Prompt
      reads this
    {
      Prompt(messages, sessionStart, resultChars)
    }

    /** One iteration's results may take a quarter of the session budget, rounded down. */
    function Allowance(): Cap {
      Cap(sessionBudgetChars / 4, RESULT_OMITTED, RESULT_TRUNCATED)
    }

    constructor (sessionBudgetChars: int)
      ensures State() == Prompt([], 0, 0) && this.sessionBudgetChars == sessionBudgetChars
    {
      this.sessionBudgetChars := sessionBudgetChars;
      messages, sessionStart, resultChars := [], 0, 0;
    }

    /** Every row comes back in its place, with its own text, calls and id, and every call it issues has a result. */
    method LoadHistory(past: seq<Row>, current: seq<Row>, incoming: string, known: set<string>)
      modifies this
      ensures State() == Loaded(old(State()), past, current, incoming, known)
      ensures LoadSays(old(State()), State(), past, current, incoming, known)
      ensures Answered(old(messages)) ==> Answered(messages)
    {
      hide PastMessages, CurrentMessages, Repaired, LoadSays, Answered;
      LoadedSays(State(), past, current, incoming, known);
      if Answered(messages) { LoadAnswers(State(), past, current, incoming, known); }
      var older := BuildPast(past, known);
      ghost var front := messages + older + NoteIf(older);
      if older != [] {
        older := older + [PAST_NOTE];
      }
      messages := messages + older;
      assert messages == front;
      var session := BuildCurrent(current, known);
      session := RepairDanglingToolUse(session);
      sessionStart := |messages|;
      messages := messages + session;
      if incoming != "" {
        messages := messages + [User(incoming)];
      }
    }

    method AppendAssistant(content: string, calls: seq<ToolCall>)
      modifies this
      ensures State() == WithAssistant(old(State()), content, calls)
      ensures messages == old(messages) + [Assistant(content, calls)] && resultChars == 0 && sessionStart == old(sessionStart)
      ensures Dangling(messages) == Dangling(old(messages)) + (CallIds(calls) - ResolvedIds(old(messages)))
    {
      IdsOfSnoc(messages, Assistant(content, calls));
      messages := messages + [Assistant(content, calls)];
      resultChars := 0;
    }

    method AppendToolResult(result: string, toolUseId: string)
      modifies this
      ensures State() == WithResult(old(State()), result, toolUseId, Allowance())
      ensures Dangling(messages) == Dangling(old(messages)) - {toolUseId}
      ensures resultChars <= Max(Allowance().chars, old(resultChars)) + Max(|Allowance().omitted|, |Allowance().truncated|)
      ensures resultChars == old(resultChars) + |messages[|messages| - 1].content| && sessionStart == old(sessionStart)
      ensures var left := sessionBudgetChars / 4 - old(resultChars);
              messages == old(messages) + [Tool(if |result| <= left then result
                                                else if left > 0 then result[..left] + RESULT_TRUNCATED else RESULT_OMITTED, toolUseId)]
    {
      var text := Enforced(result, Allowance(), resultChars);
      IdsOfSnoc(messages, Tool(text, toolUseId));
      messages := messages + [Tool(text, toolUseId)];
      resultChars := resultChars + |text|;
    }

    method Append(m: Message)
      modifies this
      ensures State() == Appended(old(State()), m)
      ensures messages == old(messages) + [m] && resultChars == old(resultChars) && sessionStart == old(sessionStart)
    {
      messages := messages + [m];
    }

    /** Keeps the end of the current session as Python slices it, and answers every call it keeps. */
    method CompactMessages(keepRecent: int)
      modifies this
      ensures State() == Compacted(old(State()), keepRecent)
      ensures sessionStart == 0 && resultChars == old(resultChars) && Answered(messages)
      ensures old(sessionStart) <= |old(messages)| ==>
                var from := if keepRecent > 0 then Max(old(sessionStart), |old(messages)| - keepRecent)
                            else if old(sessionStart) - keepRecent <= |old(messages)| then old(sessionStart) - keepRecent else |old(messages)|;
                WithoutResults(messages, Dangling(old(messages)[from..])) == old(messages)[from..]
    {
      hide Repaired, Answered, WithoutResults, Dangling;
      CompactedKeeps(State(), keepRecent);
      CompactionAnswers(State(), keepRecent);
      var current := if sessionStart <= |messages| then messages[sessionStart..] else [];
      if |current| > keepRecent {
        current := LastSlice(current, keepRecent);
      }
      current := RepairDanglingToolUse(current);
      messages := current;
      sessionStart := 0;
    }
  }
}
