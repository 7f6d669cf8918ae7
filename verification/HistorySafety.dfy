/** What a reloaded prompt says: which row each of its messages comes from, and with which text, calls and id. */
module HistorySafety {
  import opened Messages
  import opened Repair
  import opened PromptSpec
  import opened History

  /** calls are the saved calls that have an id and a name still in use, in order, with the legacy name replaced. */
  ghost predicate KeepsCalls(calls: seq<ToolCall>, saved: seq<ToolCall>, known: set<string>) {
    if saved == [] then calls == [] else
      var last := saved[|saved| - 1];
      var name := if last.name == "execute_command E2B" then "execute_command" else last.name;
      if last.id == "" || name == "" || (name !in known && name != "end" && name != "thinking_done")
      then KeepsCalls(calls, saved[..|saved| - 1], known)
      else calls != [] && calls[|calls| - 1] == ToolCall(last.id, name, last.input)
           && KeepsCalls(calls[..|calls| - 1], saved[..|saved| - 1], known)
  }

  lemma {:induction false} RestoredKeeps(saved: seq<ToolCall>, known: set<string>)
    ensures KeepsCalls(RestoredCalls(saved, known), saved, known)
  {
    if saved != [] {
      var n := |saved| - 1;
      RestoredKeeps(saved[..n], known);
      var r, front := RestoredCalls(saved, known), RestoredCalls(saved[..n], known);
      if Restorable(saved[n], known) {
        assert r[..|r| - 1] == front;
      } else {
        assert r == front;
      }
    }
  }

  // ----- The current session -----

  /** m says what the row of the current session says, in the row's role and under its id. */
  ghost predicate SaysRow(m: Message, h: Row, known: set<string>) {
    match h.role
    case UserRow => m == User(h.content)
    case AssistantRow => m.Assistant? && m.content == h.content && KeepsCalls(m.calls, h.savedCalls, known)
    case ToolRow => m == Tool(h.content, h.savedId)
  }

  /** session is one message for each row, in order, with one placeholder behind them for each call without a result. */
  ghost predicate SaysRows(session: seq<Message>, rows: seq<Row>, known: set<string>) {
    exists plain: seq<Message> :: |plain| == |rows| && (forall i :: 0 <= i < |rows| ==> SaysRow(plain[i], rows[i], known))
      && WithoutResults(session, Dangling(plain)) == plain
      && OneEach(ResultsFor(session, Dangling(plain)), CallsIn(plain), Dangling(plain))
  }

  lemma SessionSays(rows: seq<Row>, known: set<string>)
    ensures SaysRows(Repaired(CurrentMessages(rows, known)), rows, known)
  {
    hide KeepsCalls, RestoredCalls, WithoutResults, ResultsFor, Patch, OneEach, CallsIn;
    var plain := CurrentMessages(rows, known);
    forall i | 0 <= i < |rows| ensures SaysRow(plain[i], rows[i], known) {
      RestoredKeeps(rows[i].savedCalls, known);
    }
    RepairLossless(plain);
    RepairAddsOneEach(plain);
  }

  // ----- The past sessions -----

  /** Row i opens a session. */
  predicate Opens(rows: seq<Row>, i: nat)
    requires i < |rows|
  {
    i == 0 || rows[i].session != rows[i - 1].session
  }

  /** How many messages of the past the first n rows make: a separator for each session, a turn for each row that is not a tool's. */
  ghost function Made(rows: seq<Row>, n: nat): nat
    requires n <= |rows|
  {
    if n == 0 then 0 else
      Made(rows, n - 1) + (if Opens(rows, n - 1) then 1 else 0) + if rows[n - 1].role.ToolRow? then 0 else 1
  }

  /** m is the turn of a past row: its text, with the calls of an assistant row reduced to a remark. */
  ghost predicate SaysPast(m: Message, h: Row, known: set<string>) {
    if h.role.UserRow? then m == User(h.content) else
      exists calls :: KeepsCalls(calls, h.savedCalls, known)
        && m == Assistant(if calls == [] then h.content
                          else (if h.content == "" then "" else h.content + "\n")
                               + "[Called tools: " + JoinNames(calls) + " \U{2014} results truncated from history]", [])
  }

  /** past holds, at the place the rows before it give, a separator where row i opens a session and then the turn of the row. */
  ghost predicate PastAt(past: seq<Message>, rows: seq<Row>, known: set<string>, i: nat)
    requires i < |rows|
  {
    var at := Made(rows, i);
    var turn := if Opens(rows, i) then at + 1 else at;
    at <= turn <= Made(rows, i + 1) <= |past|
    && (Opens(rows, i) ==> past[at] == User("--- Session "
                                            + (if |rows[i].session| <= 8 then rows[i].session else rows[i].session[..8]) + " ---"))
    && (!rows[i].role.ToolRow? ==> turn < |past| && SaysPast(past[turn], rows[i], known))
  }

  ghost predicate PastSays(past: seq<Message>, rows: seq<Row>, known: set<string>) {
    |past| == Made(rows, |rows|) && forall i :: 0 <= i < |rows| ==> PastAt(past, rows, known, i)
  }

  lemma {:induction false} MadeOfPrefix(rows: seq<Row>, k: nat, n: nat)
    requires n <= k <= |rows|
    ensures Made(rows[..k], n) == Made(rows, n)
  {
    if n > 0 { MadeOfPrefix(rows, k, n - 1); }
  }

  lemma PastAtEarlier(past: seq<Message>, more: seq<Message>, rows: seq<Row>, known: set<string>, k: nat, i: nat)
    requires i < k <= |rows| && PastAt(past, rows[..k], known, i)
    ensures PastAt(past + more, rows, known, i)
  {
    MadeOfPrefix(rows, k, i);
    MadeOfPrefix(rows, k, i + 1);
  }

  lemma TurnSays(h: Row, known: set<string>)
    requires !h.role.ToolRow?
    ensures |PastMessage(h, known)| == 1 && SaysPast(PastMessage(h, known)[0], h, known)
  {
    hide KeepsCalls, RestoredCalls, JoinNames;
    RestoredKeeps(h.savedCalls, known);
  }

  lemma {:induction false} PastKeepsTexts(rows: seq<Row>, known: set<string>)
    ensures PastSays(PastMessages(rows, known), rows, known)
  {
    hide PastMessage, SaysPast;
    if rows != [] {
      var n := |rows| - 1;
      var front := PastMessages(rows[..n], known);
      var separator := if Opens(rows, n) then [Separator(rows[n].session)] else [];
      var all := PastMessages(rows, known);
      assert all == front + (separator + PastMessage(rows[n], known));
      PastKeepsTexts(rows[..n], known);
      MadeOfPrefix(rows, n, n);
      forall i | 0 <= i < n ensures PastAt(all, rows, known, i) {
        PastAtEarlier(front, separator + PastMessage(rows[n], known), rows, known, n, i);
      }
      if rows[n].role.ToolRow? {
        assert PastMessage(rows[n], known) == [] by { ToolRowsVanish(rows[n], known); }
      } else {
        TurnSays(rows[n], known);
      }
    }
  }

  lemma ToolRowsVanish(h: Row, known: set<string>)
    requires h.role.ToolRow?
    ensures PastMessage(h, known) == []
  {
  }

  lemma {:induction false} JoinConcat(a: seq<ToolCall>, b: seq<ToolCall>)
    requires a != [] && b != []
    ensures JoinNames(a + b) == JoinNames(a) + ", " + JoinNames(b)
  {
    if |a| == 1 {
      assert (a + b)[1..] == b;
    } else {
      assert (a + b)[1..] == a[1..] + b;
      JoinConcat(a[1..], b);
    }
  }

  // ----- The whole prompt -----

  /**
   * after is what loading leaves of before: the old messages, the past turns and their note, then from the session's
   * start one message per current row with its placeholders, and the incoming text last.
   */
  ghost predicate LoadSays(before: Prompt, after: Prompt, past: seq<Row>, current: seq<Row>, incoming: string, known: set<string>) {
    var older := Made(past, |past|);
    var ends := |after.messages| - if incoming != "" then 1 else 0;
    var starts := |before.messages| + older + if older > 0 then 1 else 0;
    before.messages <= after.messages && after.sessionStart == starts <= ends && after.resultChars == before.resultChars
    && PastSays(after.messages[|before.messages|..|before.messages| + older], past, known)
    && (older == 0 || after.messages[starts - 1]
                      == User("[Past session tool results are fully truncated. Use read_history(session_id=...) to view them if needed.]"))
    && SaysRows(after.messages[starts..ends], current, known)
    && (incoming != "" ==> after.messages[ends] == User(incoming))
  }

  /** A reloaded prompt says what the rows say, each in its place, and nothing else. */
  lemma LoadedSays(p: Prompt, past: seq<Row>, current: seq<Row>, incoming: string, known: set<string>)
    ensures LoadSays(p, Loaded(p, past, current, incoming, known), past, current, incoming, known)
  {
    hide PastMessages, PastSays, SaysRows, CurrentMessages, Repaired;
    var older := PastMessages(past, known);
    var session := Repaired(CurrentMessages(current, known));
    var r := Loaded(p, past, current, incoming, known).messages;
    PastKeepsTexts(past, known);
    SessionSays(current, known);
    assert |older| == Made(past, |past|) by { PastCount(older, past, known); }
    assert r[|p.messages|..|p.messages| + |older|] == older;
    var starts := |p.messages + older + NoteIf(older)|;
    assert r[starts..starts + |session|] == session;
  }

  lemma PastCount(older: seq<Message>, past: seq<Row>, known: set<string>)
    requires PastSays(older, past, known)
    ensures |older| == Made(past, |past|)
  {
  }
}
