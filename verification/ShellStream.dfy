/** Reading a shell command's output from a stream that arrives in pieces. */
module ShellStream {
  import opened Prelude

  newtype byte = x: int | 0 <= x < 256

  type Bytes = seq<byte>

  const NEWLINE: byte := 10
  const COLON: byte := 58
  const MAX_OUTPUT: nat := 1024 * 1024

  /** What one receive yields: data, or nothing before the deadline. */
  datatype Receive = Chunk(data: Bytes) | Timeout

  /** exitText is the text after the first colon of the sentinel line; the source parses it as an integer. */
  datatype ShellResult = ShellResult(stdout: Bytes, exitText: Option<Bytes>, truncated: bool)

  predicate MatchAt(s: Bytes, pat: Bytes, i: nat) {
    i + |pat| <= |s| && s[i..i + |pat|] == pat
  }

  /** bytes.find(pat, from). */
  function Find(s: Bytes, pat: Bytes, from: nat): (r: int)
    requires from <= |s|
    ensures r == -1 || (from <= r && MatchAt(s, pat, r))
    ensures forall i :: from <= i && (r == -1 || i < r) ==> !MatchAt(s, pat, i)
    decreases |s| - from
  {
    if MatchAt(s, pat, from) then from else if from == |s| then -1 else Find(s, pat, from + 1)
  }

  function Joined(chunks: seq<Bytes>): Bytes {
    if chunks == [] then [] else Joined(chunks[..|chunks| - 1]) + chunks[|chunks| - 1]
  }

  function LastBytes(s: Bytes, n: nat): Bytes {
    if |s| > n then s[|s| - n..] else s
  }

  function AfterColon(line: Bytes): Bytes {
    var i := Find(line, [COLON], 0);
    if i < 0 then [] else line[i + 1..]
  }

  /** The result, if the stream so far holds a complete sentinel line. */
  function Complete(stream: Bytes, sentinel: Bytes): Option<ShellResult> {
    var marker := Find(stream, sentinel, 0);
    if marker < 0 then None else
      var end := Find(stream, [NEWLINE], marker);
      if end < 0 then None else
        Some(ShellResult(LastBytes(stream[..marker], MAX_OUTPUT), Some(AfterColon(stream[marker..end])), end + 1 > MAX_OUTPUT))
  }

  /** Parsing a whole stream at once; without a sentinel line, all of it is output. */
  function Parse(stream: Bytes, sentinel: Bytes): ShellResult {
    var c := Complete(stream, sentinel);
    if c.Some? then c.value else ShellResult(LastBytes(stream, MAX_OUTPUT), None, |stream| > MAX_OUTPUT)
  }

  /** The pieces that arrive before the collection is over: a timeout or an empty piece ends it. */
  function Received(events: seq<Receive>): seq<Bytes> {
    if events == [] || events[0].Timeout? || events[0].data == [] then [] else [events[0].data] + Received(events[1..])
  }

  // ----- More data does not change what was found -----

  lemma FindIs(s: Bytes, pat: Bytes, from: nat, i: nat)
    requires from <= i && MatchAt(s, pat, i) && forall j :: from <= j < i ==> !MatchAt(s, pat, j)
    ensures Find(s, pat, from) == i
  {
  }

  lemma OneByte(s: Bytes, b: byte, i: nat)
    ensures MatchAt(s, [b], i) <==> i < |s| && s[i] == b
  {
    if i < |s| { assert s[i..i + 1] == [s[i]]; }
  }

  /** The first b at or after from is at i. */
  lemma FindByte(s: Bytes, b: byte, from: nat, i: nat)
    requires from <= i < |s| && s[i] == b && forall j :: from <= j < i ==> s[j] != b
    ensures Find(s, [b], from) == i
  {
    forall j | from <= j <= i ensures MatchAt(s, [b], j) <==> s[j] == b {
      OneByte(s, b, j);
    }
    FindIs(s, [b], from, i);
  }

  lemma FindStable(s: Bytes, more: Bytes, pat: Bytes, from: nat)
    requires from <= |s| && Find(s, pat, from) >= 0
    ensures Find(s + more, pat, from) == Find(s, pat, from)
  {
    var i := Find(s, pat, from);
    forall j | from <= j <= i ensures MatchAt(s + more, pat, j) == MatchAt(s, pat, j) {
      assert j + |pat| <= |s| ==> (s + more)[j..j + |pat|] == s[j..j + |pat|];
    }
    FindIs(s + more, pat, from, i);
  }

  lemma CompleteStable(s: Bytes, more: Bytes, sentinel: Bytes)
    requires Complete(s, sentinel).Some?
    ensures Complete(s + more, sentinel) == Complete(s, sentinel)
  {
    var marker := Find(s, sentinel, 0);
    FindStable(s, more, sentinel, 0);
    FindStable(s, more, [NEWLINE], marker);
    var end := Find(s, [NEWLINE], marker);
    assert (s + more)[..marker] == s[..marker] && (s + more)[marker..end] == s[marker..end];
  }

  lemma {:induction false} JoinedConcat(a: seq<Bytes>, b: seq<Bytes>)
    ensures Joined(a + b) == Joined(a) + Joined(b)
  {
    if b == [] {
      assert a + b == a;
    } else {
      assert (a + b)[..|a + b| - 1] == a + b[..|b| - 1];
      JoinedConcat(a, b[..|b| - 1]);
    }
  }

  lemma {:induction false} ReceivedAre(events: seq<Receive>, i: nat)
    requires i <= |events| && forall k :: 0 <= k < i ==> events[k].Chunk? && events[k].data != []
    ensures |Received(events)| >= i && forall k :: 0 <= k < i ==> Received(events)[k] == events[k].data
    ensures i == |events| || events[i].Timeout? || events[i].data == [] ==> |Received(events)| == i
  {
    if i > 0 {
      var rest := events[1..];
      assert forall k :: 0 <= k < i - 1 ==> rest[k] == events[k + 1];
      ReceivedAre(rest, i - 1);
    }
  }

  /**
   * Collects until the sentinel line is complete, the deadline passes or an empty piece arrives. The result is that of
   * parsing at once everything received.
   */
  method CollectShellOutput(events: seq<Receive>, sentinel: Bytes) returns (r: ShellResult)
    ensures r == Parse(Joined(Received(events)), sentinel)
  {
    var chunks: seq<Bytes> := [];
    var i := 0;
    while i < |events|
      invariant i <= |events| && |chunks| == i
      invariant forall k :: 0 <= k < i ==> events[k].Chunk? && events[k].data != [] && chunks[k] == events[k].data
      invariant Complete(Joined(chunks), sentinel).None?
    {
      hide Complete, Find, Parse, Received, LastBytes, MatchAt;
      ReceivedAre(events, i);
      if events[i].Timeout? { break; }
      var chunk := events[i].data;
      if chunk == [] { break; }
      chunks := chunks + [chunk];
      i := i + 1;
      var combined := Joined(chunks);
      r := TryComplete(combined, sentinel);
      if Complete(combined, sentinel).Some? {
        CompleteSettles(events, chunks, sentinel);
        return;
      }
    }
    ReceivedAre(events, i);
    assert Received(events) == chunks;
    var stdout := Joined(chunks);
    var truncated := false;
    if |stdout| > MAX_OUTPUT {
      stdout := stdout[|stdout| - MAX_OUTPUT..];
      truncated := true;
    }
    return ShellResult(stdout, None, truncated);
  }

  /** Once the sentinel line is complete, nothing received later changes the result. */
  lemma CompleteSettles(events: seq<Receive>, chunks: seq<Bytes>, sentinel: Bytes)
    requires |chunks| <= |events|
    requires forall k :: 0 <= k < |chunks| ==> events[k].Chunk? && events[k].data != [] && chunks[k] == events[k].data
    requires Complete(Joined(chunks), sentinel).Some?
    ensures Parse(Joined(Received(events)), sentinel) == Complete(Joined(chunks), sentinel).value
  {
    hide Complete, Parse, Received, Joined;
    var i := |chunks|;
    ReceivedAre(events, i);
    var all := Received(events);
    assert chunks == all[..i] && all == all[..i] + all[i..];
    JoinedConcat(all[..i], all[i..]);
    CompleteStable(Joined(chunks), Joined(all[i..]), sentinel);
    CompleteParses(Joined(all), sentinel);
  }

  lemma CompleteParses(stream: Bytes, sentinel: Bytes)
    ensures Complete(stream, sentinel).Some? ==> Parse(stream, sentinel) == Complete(stream, sentinel).value
  {
  }

  /** The parsing step of one turn of the loop; its result counts only when the sentinel line is complete. */
  method TryComplete(combined: Bytes, sentinel: Bytes) returns (r: ShellResult)
    ensures Complete(combined, sentinel).Some? ==> r == Complete(combined, sentinel).value
  {
    r := ShellResult([], None, false);
    var marker := Find(combined, sentinel, 0);
    if marker == -1 { return; }
    var lineEnd := Find(combined, [NEWLINE], marker);
    if lineEnd == -1 { return; }
    var exitText := AfterColon(combined[marker..lineEnd]);
    var stdout := combined[..marker];
    var truncated := lineEnd + 1 > MAX_OUTPUT;
    if |stdout| > MAX_OUTPUT {
      stdout := stdout[|stdout| - MAX_OUTPUT..];
    }
    r := ShellResult(stdout, Some(exitText), truncated);
  }

  // ----- What follows for every stream -----

  /** Two ways of cutting the same bytes into non-empty pieces give the same result. */
  lemma FragmentationIndependent(a: seq<Receive>, b: seq<Receive>, sentinel: Bytes)
    requires forall k :: 0 <= k < |a| ==> a[k].Chunk? && a[k].data != []
    requires forall k :: 0 <= k < |b| ==> b[k].Chunk? && b[k].data != []
    requires Joined(seq(|a|, i requires 0 <= i < |a| => a[i].data)) == Joined(seq(|b|, i requires 0 <= i < |b| => b[i].data))
    ensures Parse(Joined(Received(a)), sentinel) == Parse(Joined(Received(b)), sentinel)
  {
    ReceivedAre(a, |a|);
    ReceivedAre(b, |b|);
    assert Received(a) == seq(|a|, i requires 0 <= i < |a| => a[i].data);
    assert Received(b) == seq(|b|, i requires 0 <= i < |b| => b[i].data);
  }

  /** Never more output than the cap, and always a suffix of what came before the sentinel. */
  lemma OutputCapped(stream: Bytes, sentinel: Bytes)
    ensures |Parse(stream, sentinel).stdout| <= MAX_OUTPUT
    ensures Parse(stream, sentinel).exitText.Some? <==>
      Find(stream, sentinel, 0) >= 0 && Find(stream, [NEWLINE], Find(stream, sentinel, 0)) >= 0
    ensures Parse(stream, sentinel).exitText.None? ==>
      var r := Parse(stream, sentinel);
      r.stdout == (if |stream| > MAX_OUTPUT then stream[|stream| - MAX_OUTPUT..] else stream) && (r.truncated <==> |stream| > MAX_OUTPUT)
  {
  }

  /** The line the wrapped command prints after its own output. */
  function SentinelLine(sentinel: Bytes, code: Bytes): Bytes {
    sentinel + [COLON] + code + [NEWLINE]
  }

  /**
   * Decoding what the wrapped command writes: when the sentinel does not occur earlier, the output and the exit text
   * come back, the output cut to its last bytes if it is over the cap. The flag counts the sentinel line as well.
   */
  lemma SentinelRoundTrip(output: Bytes, sentinel: Bytes, code: Bytes, rest: Bytes)
    requires NEWLINE !in sentinel && COLON !in sentinel && NEWLINE !in code
    requires Find(output + sentinel, sentinel, 0) == |output|
    ensures Parse(output + SentinelLine(sentinel, code) + rest, sentinel)
         == ShellResult(LastBytes(output, MAX_OUTPUT), Some(code), |output| + |SentinelLine(sentinel, code)| > MAX_OUTPUT)
  {
    hide Find, MatchAt, AfterColon, Complete, LastBytes;
    var line := sentinel + [COLON] + code;
    var stream := output + SentinelLine(sentinel, code) + rest;
    var tail := [COLON] + code + [NEWLINE] + rest;
    assert stream == (output + sentinel) + tail;
    FindStable(output + sentinel, tail, sentinel, 0);
    ColonAt(sentinel, code);
    assert stream == output + line + [NEWLINE] + rest;
    LineParses(output, line, rest, sentinel);
  }

  lemma LineParses(output: Bytes, line: Bytes, rest: Bytes, sentinel: Bytes)
    requires NEWLINE !in line && Find(output + line + [NEWLINE] + rest, sentinel, 0) == |output|
    ensures Complete(output + line + [NEWLINE] + rest, sentinel)
         == Some(ShellResult(LastBytes(output, MAX_OUTPUT), Some(AfterColon(line)), |output| + |line| + 1 > MAX_OUTPUT))
  {
    hide Find, MatchAt, AfterColon, LastBytes;
    var stream := output + line + [NEWLINE] + rest;
    var m, end := |output|, |output| + |line|;
    assert stream[m..end] == line && stream[end] == NEWLINE && stream[..m] == output;
    forall i | m <= i < end ensures stream[i] != NEWLINE {
      assert stream[i] == line[i - m] && line[i - m] in line;
    }
    FindByte(stream, NEWLINE, m, end);
  }

  lemma ColonAt(sentinel: Bytes, code: Bytes)
    requires COLON !in sentinel
    ensures AfterColon(sentinel + [COLON] + code) == code
  {
    var line := sentinel + [COLON] + code;
    var n := |sentinel|;
    forall i | 0 <= i < n ensures line[i] != COLON {
      assert line[i] == sentinel[i] && sentinel[i] in sentinel;
    }
    FindByte(line, COLON, 0, n);
    assert line[n + 1..] == code;
  }

  /** An empty piece ends the collection: the exit text is lost exactly when the sentinel line was not complete by then. */
  lemma EmptyPieceEnds(before: seq<Receive>, later: seq<Receive>, sentinel: Bytes)
    requires forall k :: 0 <= k < |before| ==> before[k].Chunk? && before[k].data != []
    ensures Parse(Joined(Received(before + [Chunk([])] + later)), sentinel).exitText.None?
      <==> Complete(Joined(Received(before)), sentinel).None?
  {
    ReceivedAre(before, |before|);
    ReceivedAre(before + [Chunk([])] + later, |before|);
    assert Received(before + [Chunk([])] + later) == Received(before);
  }
}
