/** The message-building part of LLMService._call_google_with_tools. */
module GoogleBuilder {
  import opened Messages
  import opened AnthropicBuilder
  import opened ScriptBuilders
  import opened Validators

  /** The service never sends an empty list. */
  ghost function GoogleContents(ms: seq<Message>): seq<GeminiContent> {
    if GeminiBuild(ms) == [] then [GeminiContent(false, [TextPart("")])] else GeminiBuild(ms)
  }

  method BuildContents(ms: seq<Message>) returns (contents: seq<GeminiContent>)
    ensures contents == GoogleContents(ms) && contents != []
    ensures if GeminiTranscript(ms) == [] then contents == [GeminiContent(false, [TextPart("")])]
            else GeminiSaid(contents) == GeminiTranscript(ms) && |contents| == GeminiSpeeches(ms)
  {
    hide GeminiTranscript, GeminiSaidBy, GeminiSpeech;
    SilentSpeeches(ms);
    contents := BuildGeminiContents(ms);
    if contents == [] {
      contents := [GeminiContent(false, [TextPart("")])];
    }
  }

  lemma {:induction false} SilentSpeeches(ms: seq<Message>)
    ensures GeminiTranscript(ms) == [] <==> GeminiSpeeches(ms) == 0
  {
    hide GeminiSpeech;
    if ms != [] { SilentSpeeches(ms[..|ms| - 1]); }
  }

  /** A call with this id and name stands in contents. */
  ghost predicate Called(contents: seq<GeminiContent>, id: string, name: string) {
    exists j, p :: 0 <= j < |contents| && contents[j].isModel && p in contents[j].parts
                   && p.FunctionCall? && p.callId == id && p.callName == name
  }

  ghost predicate ResponsesFollowCalls(contents: seq<GeminiContent>) {
    forall i, p :: 0 <= i < |contents| && p in contents[i].parts && p.FunctionResponse? ==>
      Called(contents[..i], p.responseId, p.responseName)
  }

  lemma CalledLonger(a: seq<GeminiContent>, b: seq<GeminiContent>, id: string, name: string)
    requires Called(a, id, name)
    ensures Called(a + b, id, name)
  {
    var j, p :| 0 <= j < |a| && a[j].isModel && p in a[j].parts && p.FunctionCall? && p.callId == id && p.callName == name;
    assert (a + b)[j] == a[j];
  }

  lemma {:induction false} RecordedFrom(names: map<string, string>, calls: seq<ToolCall>, id: string)
    requires id in RecordNames(names, calls)
    ensures (id in names && RecordNames(names, calls)[id] == names[id])
         || exists tc :: tc in calls && WellFormed(tc) && tc.id == id && tc.name == RecordNames(names, calls)[id]
  {
    if calls != [] {
      var n := |calls| - 1;
      if WellFormed(calls[n]) && calls[n].id == id {
        assert calls[n] in calls;
      } else {
        RecordedFrom(names, calls[..n], id);
        assert forall tc :: tc in calls[..n] ==> tc in calls;
      }
    }
  }

  /** A recorded name is the name of a call that was sent. */
  lemma {:induction false} NamesCalled(ms: seq<Message>, id: string)
    requires id in NamesAfter(ms)
    ensures Called(GeminiBuild(ms), id, NamesAfter(ms)[id])
  {
    var n := |ms| - 1;
    var front, turn := GeminiBuild(ms[..n]), GeminiOne(ms[n], NamesAfter(ms[..n]));
    var name := NamesAfter(ms)[id];
    RecordedFrom(NamesAfter(ms[..n]), CallsOf(ms[n]), id);
    if id in NamesAfter(ms[..n]) && name == NamesAfter(ms[..n])[id] {
      NamesCalled(ms[..n], id);
      CalledLonger(front, turn, id, name);
    } else {
      TurnCalls(ms[n], NamesAfter(ms[..n]), id, name);
      var api := front + turn;
      assert api[|front|] == turn[0];
    }
  }

  lemma TurnCalls(m: Message, names: map<string, string>, id: string, name: string)
    requires exists tc :: tc in CallsOf(m) && WellFormed(tc) && tc.id == id && tc.name == name
    ensures |GeminiOne(m, names)| == 1 && GeminiOne(m, names)[0].isModel
    ensures exists p :: p in GeminiOne(m, names)[0].parts && p.FunctionCall? && p.callId == id && p.callName == name
  {
    hide CallParts, RecordNames;
    var tc :| tc in CallsOf(m) && WellFormed(tc) && tc.id == id && tc.name == name;
    CallPartsAre(CallsOf(m));
    assert FunctionCall(tc.id, tc.name, tc.input) in CallParts(CallsOf(m));
    assert FunctionCall(tc.id, tc.name, tc.input) in GeminiOne(m, names)[0].parts;
  }

  /** For every message list, each response the service sends follows a call with its id and its name. */
  lemma {:induction false} GoogleResponsesFollowCalls(ms: seq<Message>)
    ensures ResponsesFollowCalls(GeminiBuild(ms)) && ResponsesFollowCalls(GoogleContents(ms))
  {
    if ms != [] {
      var n := |ms| - 1;
      var front, turn := GeminiBuild(ms[..n]), GeminiOne(ms[n], NamesAfter(ms[..n]));
      GoogleResponsesFollowCalls(ms[..n]);
      var all := front + turn;
      forall i, p | 0 <= i < |all| && p in all[i].parts && p.FunctionResponse?
        ensures Called(all[..i], p.responseId, p.responseName)
      {
        if i < |front| {
          assert all[..i] == front[..i];
        } else {
          TurnResponse(ms[n], NamesAfter(ms[..n]), p);
          NamesCalled(ms[..n], p.responseId);
          assert all[..i] == front;
        }
      }
    }
  }

  lemma TurnResponse(m: Message, names: map<string, string>, p: Part)
    requires GeminiOne(m, names) != [] && p in GeminiOne(m, names)[0].parts && p.FunctionResponse?
    ensures |GeminiOne(m, names)| == 1 && p.responseId in names && p.responseName == names[p.responseId]
  {
    hide RecordNames, CallParts;
    CallPartsAre(CallsOf(m));
  }
}
