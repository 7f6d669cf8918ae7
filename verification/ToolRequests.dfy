/** Renaming every tool name of a request, and undoing it on the response. */
module ToolRequests {
  import opened Prelude
  import opened Messages
  import opened ToolNames

  datatype LlmTool = LlmTool(name: string, description: string, schema: string)

  datatype LlmMessage = LlmMessage(role: string, content: string, calls: seq<ToolCall>, toolUseId: string, imageParts: seq<string>)

  datatype LlmRequest = LlmRequest(
    model: string,
    systemPrompt: string,
    messages: seq<LlmMessage>,
    tools: seq<LlmTool>,
    temperature: real,
    maxTokens: int,
    provider: Option<string>,
    apiKey: Option<string>)

  ghost function RequestNames(r: LlmRequest): set<string> {
    (set t | t in r.tools :: t.name) + set m, tc | m in r.messages && tc in m.calls :: tc.name
  }

  function RenamedTool(t: LlmTool, names: map<string, string>): LlmTool {
    if t.name in names then t.(name := names[t.name]) else t
  }

  function RenamedCall(tc: ToolCall, names: map<string, string>): ToolCall {
    if tc.name in names then tc.(name := names[tc.name]) else tc
  }

  ghost function RenamedCalls(calls: seq<ToolCall>, names: map<string, string>): (r: seq<ToolCall>)
    ensures |r| == |calls|
  {
    seq(|calls|, i requires 0 <= i < |calls| => RenamedCall(calls[i], names))
  }

  /** A message with calls is built anew, which leaves its image parts behind. */
  ghost function RenamedMessage(m: LlmMessage, names: map<string, string>): LlmMessage {
    if m.calls == [] then m else LlmMessage(m.role, m.content, RenamedCalls(m.calls, names), m.toolUseId, [])
  }

  ghost function RenamedTools(tools: seq<LlmTool>, names: map<string, string>): (r: seq<LlmTool>)
    ensures |r| == |tools|
  {
    seq(|tools|, i requires 0 <= i < |tools| => RenamedTool(tools[i], names))
  }

  ghost function RenamedMessages(ms: seq<LlmMessage>, names: map<string, string>): (r: seq<LlmMessage>)
    ensures |r| == |ms|
  {
    seq(|ms|, i requires 0 <= i < |ms| => RenamedMessage(ms[i], names))
  }

  /** The rebuilt request; its API key is not carried over. */
  ghost function Renamed(r: LlmRequest, names: map<string, string>): LlmRequest {
    r.(tools := RenamedTools(r.tools, names), messages := RenamedMessages(r.messages, names), apiKey := None)
  }

  ghost predicate Extends(bigger: map<string, string>, smaller: map<string, string>) {
    forall k :: k in smaller ==> k in bigger && bigger[k] == smaller[k]
  }

  lemma StableTools(tools: seq<LlmTool>, smaller: map<string, string>, bigger: map<string, string>)
    requires Extends(bigger, smaller) && forall t :: t in tools ==> t.name in smaller
    ensures RenamedTools(tools, bigger) == RenamedTools(tools, smaller)
  {
  }

  lemma StableCalls(calls: seq<ToolCall>, smaller: map<string, string>, bigger: map<string, string>)
    requires Extends(bigger, smaller) && forall tc :: tc in calls ==> tc.name in smaller
    ensures RenamedCalls(calls, bigger) == RenamedCalls(calls, smaller)
  {
  }

  ghost predicate CallsNamed(ms: seq<LlmMessage>, names: map<string, string>) {
    forall m, tc :: m in ms && tc in m.calls ==> tc.name in names
  }

  lemma StableMessages(ms: seq<LlmMessage>, smaller: map<string, string>, bigger: map<string, string>)
    requires Extends(bigger, smaller) && CallsNamed(ms, smaller)
    ensures RenamedMessages(ms, bigger) == RenamedMessages(ms, smaller)
  {
    forall i | 0 <= i < |ms| ensures RenamedMessage(ms[i], bigger) == RenamedMessage(ms[i], smaller) {
      assert ms[i] in ms;
      StableCalls(ms[i].calls, smaller, bigger);
    }
  }

  method NormalizeTools(adapter: ToolNameAdapter, tools: seq<LlmTool>) returns (r: seq<LlmTool>)
    requires adapter.Valid()
    modifies adapter
    ensures adapter.Valid() && Extends(adapter.canonicalOf, old(adapter.canonicalOf))
    ensures forall t :: t in tools ==> t.name in adapter.canonicalOf
    ensures r == RenamedTools(tools, adapter.canonicalOf)
  {
    hide Inverse, AllAllowed, WithSuffix, SanitizeToolName;
    r := [];
    for i := 0 to |tools|
      invariant adapter.Valid() && Extends(adapter.canonicalOf, old(adapter.canonicalOf))
      invariant forall t :: t in tools[..i] ==> t.name in adapter.canonicalOf
      invariant r == RenamedTools(tools[..i], adapter.canonicalOf)
    {
      ghost var before := adapter.canonicalOf;
      var canonical := adapter.ToCanonical(tools[i].name);
      StableTools(tools[..i], before, adapter.canonicalOf);
      r := r + [LlmTool(canonical, tools[i].description, tools[i].schema)];
      assert tools[..i + 1] == tools[..i] + [tools[i]];
      assert r == RenamedTools(tools[..i + 1], adapter.canonicalOf);
    }
    assert tools[..|tools|] == tools;
  }

  method NormalizeCalls(adapter: ToolNameAdapter, calls: seq<ToolCall>) returns (r: seq<ToolCall>)
    requires adapter.Valid()
    modifies adapter
    ensures adapter.Valid() && Extends(adapter.canonicalOf, old(adapter.canonicalOf))
    ensures forall tc :: tc in calls ==> tc.name in adapter.canonicalOf
    ensures r == RenamedCalls(calls, adapter.canonicalOf)
  {
    hide Inverse, AllAllowed, WithSuffix, SanitizeToolName;
    r := [];
    for i := 0 to |calls|
      invariant adapter.Valid() && Extends(adapter.canonicalOf, old(adapter.canonicalOf))
      invariant forall tc :: tc in calls[..i] ==> tc.name in adapter.canonicalOf
      invariant r == RenamedCalls(calls[..i], adapter.canonicalOf)
    {
      ghost var before := adapter.canonicalOf;
      var canonical := adapter.ToCanonical(calls[i].name);
      StableCalls(calls[..i], before, adapter.canonicalOf);
      r := r + [ToolCall(calls[i].id, canonical, calls[i].input)];
      assert calls[..i + 1] == calls[..i] + [calls[i]];
      assert r == RenamedCalls(calls[..i + 1], adapter.canonicalOf);
    }
    assert calls[..|calls|] == calls;
  }

  method NormalizeMessages(adapter: ToolNameAdapter, ms: seq<LlmMessage>) returns (r: seq<LlmMessage>, saw: bool)
    requires adapter.Valid()
    modifies adapter
    ensures adapter.Valid() && Extends(adapter.canonicalOf, old(adapter.canonicalOf))
    ensures CallsNamed(ms, adapter.canonicalOf)
    ensures r == RenamedMessages(ms, adapter.canonicalOf)
    ensures saw <==> exists m :: m in ms && m.calls != []
  {
    hide Inverse;
    r, saw := [], false;
    for i := 0 to |ms|
      invariant adapter.Valid() && Extends(adapter.canonicalOf, old(adapter.canonicalOf))
      invariant CallsNamed(ms[..i], adapter.canonicalOf)
      invariant r == RenamedMessages(ms[..i], adapter.canonicalOf)
      invariant saw <==> exists m :: m in ms[..i] && m.calls != []
    {
      var m := ms[i];
      ghost var before := adapter.canonicalOf;
      assert ms[..i + 1] == ms[..i] + [m];
      if m.calls == [] {
        r := r + [m];
      } else {
        var calls := NormalizeCalls(adapter, m.calls);
        StableMessages(ms[..i], before, adapter.canonicalOf);
        saw := true;
        r := r + [LlmMessage(m.role, m.content, calls, m.toolUseId, [])];
      }
      assert r == RenamedMessages(ms[..i + 1], adapter.canonicalOf);
    }
    assert ms[..|ms|] == ms;
  }

  method NormalizeRequestToolNames(request: LlmRequest) returns (normalized: LlmRequest, adapter: ToolNameAdapter?)
    ensures adapter == null <==> RequestNames(request) == {}
    ensures adapter == null ==> normalized == request
    ensures adapter != null ==>
              fresh(adapter) && adapter.Valid() && RequestNames(request) <= adapter.canonicalOf.Keys
              && normalized == Renamed(request, adapter.canonicalOf)
  {
    hide Inverse;
    var a := new ToolNameAdapter();
    var tools := NormalizeTools(a, request.tools);
    ghost var before := a.canonicalOf;
    var messages, saw := NormalizeMessages(a, request.messages);
    StableTools(request.tools, before, a.canonicalOf);
    NamesSeen(request);
    if request.tools == [] && !saw {
      return request, null;
    }
    normalized := LlmRequest(request.model, request.systemPrompt, messages, tools, request.temperature,
                             request.maxTokens, request.provider, None);
    adapter := a;
  }

  lemma NamesSeen(r: LlmRequest)
    ensures RequestNames(r) == {} <==> r.tools == [] && !exists m :: m in r.messages && m.calls != []
  {
    if r.tools != [] {
      assert r.tools[0] in r.tools && r.tools[0].name in RequestNames(r);
    }
    if m :| m in r.messages && m.calls != [] {
      assert m.calls[0] in m.calls && m.calls[0].name in RequestNames(r);
    }
  }

  // ----- The way back -----

  function Restored(tc: ToolCall, originals: map<string, string>): ToolCall {
    tc.(name := if tc.name in originals then originals[tc.name] else tc.name)
  }

  method DenormalizeToolCalls(calls: seq<ToolCall>, adapter: ToolNameAdapter) returns (r: seq<ToolCall>)
    ensures |r| == |calls| && forall i :: 0 <= i < |calls| ==> r[i] == Restored(calls[i], adapter.originalOf)
  {
    if calls == [] {
      return calls;
    }
    r := [];
    for i := 0 to |calls|
      invariant |r| == i && forall j :: 0 <= j < i ==> r[j] == Restored(calls[j], adapter.originalOf)
    {
      r := r + [ToolCall(calls[i].id, adapter.ToOriginal(calls[i].name), calls[i].input)];
    }
  }

  /**
   * Round trip: through mutually inverse maps, a renamed call comes back as it was, calls with different names
   * stay different, and a name the request never used passes through unchanged.
   */
  lemma RenamingRoundTrip(names: map<string, string>, originals: map<string, string>, a: ToolCall, b: ToolCall)
    requires Inverse(names, originals) && a.name in names && b.name in names
    ensures Restored(RenamedCall(a, names), originals) == a
    ensures RenamedCall(a, names).name == RenamedCall(b, names).name <==> a.name == b.name
    ensures forall tc: ToolCall :: tc.name !in originals ==> Restored(tc, originals) == tc
  {
  }

  /** The request with its tool names put back. */
  ghost function Undone(r: LlmRequest, originals: map<string, string>): LlmRequest {
    r.(tools := seq(|r.tools|, i requires 0 <= i < |r.tools| =>
         r.tools[i].(name := if r.tools[i].name in originals then originals[r.tools[i].name] else r.tools[i].name)),
       messages := seq(|r.messages|, i requires 0 <= i < |r.messages| =>
         r.messages[i].(calls := seq(|r.messages[i].calls|, j requires 0 <= j < |r.messages[i].calls| =>
           Restored(r.messages[i].calls[j], originals)))))
  }

  ghost predicate ImagesOnlyWithoutCalls(r: LlmRequest) {
    forall m :: m in r.messages && m.calls != [] ==> m.imageParts == []
  }

  lemma UndoneMessage(m: LlmMessage, names: map<string, string>, originals: map<string, string>)
    requires Inverse(names, originals) && forall tc :: tc in m.calls ==> tc.name in names
    ensures var n := RenamedMessage(m, names);
            n.(calls := seq(|n.calls|, j requires 0 <= j < |n.calls| => Restored(n.calls[j], originals)))
            == if m.calls == [] then m else m.(imageParts := [])
  {
    var n := RenamedMessage(m, names);
    var back := seq(|n.calls|, j requires 0 <= j < |n.calls| => Restored(n.calls[j], originals));
    assert forall j :: 0 <= j < |m.calls| ==> m.calls[j] in m.calls;
    assert back == m.calls;
  }

  /**
   * Undoing the renaming gives the whole request back exactly when it had no API key and no image parts on
   * messages with calls: those are what the rebuilt request does not copy.
   */
  lemma RequestRoundTrip(r: LlmRequest, names: map<string, string>, originals: map<string, string>)
    requires Inverse(names, originals) && RequestNames(r) <= names.Keys
    ensures Undone(Renamed(r, names), originals) == r <==> r.apiKey == None && ImagesOnlyWithoutCalls(r)
    ensures Undone(Renamed(r, names), originals).tools == r.tools
  {
    hide Inverse;
    var back := Undone(Renamed(r, names), originals);
    forall i | 0 <= i < |r.tools| ensures back.tools[i] == r.tools[i] {
      assert r.tools[i] in r.tools && r.tools[i].name in RequestNames(r);
      InverseAt(names, originals, r.tools[i].name);
    }
    forall i | 0 <= i < |r.messages|
      ensures back.messages[i] == if r.messages[i].calls == [] then r.messages[i] else r.messages[i].(imageParts := [])
    {
      assert r.messages[i] in r.messages;
      assert forall tc :: tc in r.messages[i].calls ==> tc.name in RequestNames(r);
      UndoneMessage(r.messages[i], names, originals);
    }
    if !ImagesOnlyWithoutCalls(r) {
      var m :| m in r.messages && m.calls != [] && m.imageParts != [];
      var i :| 0 <= i < |r.messages| && r.messages[i] == m;
      assert back.messages[i] != r.messages[i];
    } else {
      assert back.messages == r.messages;
    }
  }

  lemma InverseAt(names: map<string, string>, originals: map<string, string>, name: string)
    requires Inverse(names, originals) && name in names
    ensures names[name] in originals && originals[names[name]] == name
  {
  }
}
