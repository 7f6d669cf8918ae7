/** The internal message list of an agent session, and which tool calls in it have results. */
module Messages {
  import opened Prelude

  /** The decoded arguments of a tool call: the two keys the loop itself reads, and the rest. */
  datatype ToolInput = ToolInput(keepRecent: Option<int>, summary: Option<string>, payload: string)

  /** An absent id or name is the empty string, as dict.get(key, "") reads it. */
  datatype ToolCall = ToolCall(id: string, name: string, input: ToolInput)

  datatype Message =
    | User(content: string)
    | Assistant(content: string, calls: seq<ToolCall>)
    | Tool(content: string, toolUseId: string)

  function CallsOf(m: Message): seq<ToolCall> {
    if m.Assistant? then m.calls else []
  }

  /** The non-empty ids of the tool calls in ms. */
  ghost function IssuedIds(ms: seq<Message>): set<string> {
    set m, tc | m in ms && tc in CallsOf(m) && tc.id != "" :: tc.id
  }

  /** The non-empty ids that some tool result in ms carries. */
  ghost function ResolvedIds(ms: seq<Message>): set<string> {
    set m | m in ms && m.Tool? && m.toolUseId != "" :: m.toolUseId
  }

  /** The history invariant: every tool call that has an id has a result. */
  ghost predicate Answered(ms: seq<Message>) {
    IssuedIds(ms) <= ResolvedIds(ms)
  }

  ghost function Dangling(ms: seq<Message>): set<string> {
    IssuedIds(ms) - ResolvedIds(ms)
  }

  ghost function CallIds(calls: seq<ToolCall>): set<string> {
    set tc | tc in calls && tc.id != "" :: tc.id
  }

  lemma IdsOfConcat(a: seq<Message>, b: seq<Message>)
    ensures IssuedIds(a + b) == IssuedIds(a) + IssuedIds(b)
    ensures ResolvedIds(a + b) == ResolvedIds(a) + ResolvedIds(b)
  {
    forall id | id in IssuedIds(a) + IssuedIds(b) ensures id in IssuedIds(a + b) {
      var m, tc :| (m in a || m in b) && tc in CallsOf(m) && tc.id == id && id != "";
      assert m in a + b;
    }
    forall id | id in ResolvedIds(a) + ResolvedIds(b) ensures id in ResolvedIds(a + b) {
      var m :| (m in a || m in b) && m.Tool? && m.toolUseId == id && id != "";
      assert m in a + b;
    }
  }

  lemma IdsOfNone()
    ensures IssuedIds([]) == {} && ResolvedIds([]) == {}
  {
  }

  lemma IdsOfOne(m: Message)
    ensures IssuedIds([m]) == CallIds(CallsOf(m))
    ensures ResolvedIds([m]) == if m.Tool? && m.toolUseId != "" then {m.toolUseId} else {}
  {
    assert m in [m];
    forall id | id in CallIds(CallsOf(m)) ensures id in IssuedIds([m]) {
      var tc :| tc in CallsOf(m) && tc.id == id && id != "";
    }
  }

  lemma IdsOfSnoc(ms: seq<Message>, m: Message)
    ensures IssuedIds(ms + [m]) == IssuedIds(ms) + CallIds(CallsOf(m))
    ensures ResolvedIds(ms + [m]) == ResolvedIds(ms) + if m.Tool? && m.toolUseId != "" then {m.toolUseId} else {}
  {
    IdsOfConcat(ms, [m]);
    IdsOfOne(m);
  }

  lemma AnsweredConcat(a: seq<Message>, b: seq<Message>)
    requires Answered(a) && Answered(b)
    ensures Answered(a + b)
  {
    IdsOfConcat(a, b);
  }

  lemma AnsweredUser(ms: seq<Message>, m: Message)
    requires m.User?
    ensures Answered(ms + [m]) <==> Answered(ms)
  {
    IdsOfSnoc(ms, m);
  }

  lemma CallIdsSnoc(calls: seq<ToolCall>, tc: ToolCall)
    ensures CallIds(calls + [tc]) == CallIds(calls) + if tc.id != "" then {tc.id} else {}
  {
    var all := calls + [tc];
    assert tc in all;
    forall x | x in calls ensures x in all {}
    assert forall x :: x in all <==> x in calls || x == tc;
  }
}
