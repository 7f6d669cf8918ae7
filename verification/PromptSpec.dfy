/** The message state of PromptAssembly as a value, and what each of its operations does to it. */
module PromptSpec {
  import opened Messages
  import opened Repair

  /** The message list, where the current session starts in it, and the tool-result characters charged this iteration. */
  datatype Prompt = Prompt(messages: seq<Message>, sessionStart: nat, resultChars: nat)

  /** The tool-result allowance of one iteration, with the notices that stand in for what it cuts. */
  datatype Cap = Cap(chars: int, omitted: string, truncated: string)

  const MAX_TOOL_RESULT_HISTORY_CHARS: nat := 200
  const MAX_TOOL_RESULT_CHARS: nat := 12000

  function TruncateForHistory(text: string, notice: string): string {
    if |text| <= MAX_TOOL_RESULT_HISTORY_CHARS then text
    else text[..MAX_TOOL_RESULT_HISTORY_CHARS] + notice
  }

  function TruncateToolOutput(text: string): string {
    if |text| <= MAX_TOOL_RESULT_CHARS then text else text[..MAX_TOOL_RESULT_CHARS] + "\n[output truncated]"
  }

  /** What is left of a tool result when `used` characters of the allowance are gone. */
  function Enforced(result: string, cap: Cap, used: int): string {
    var remaining := cap.chars - used;
    if |result| <= remaining then result
    else if remaining <= 0 then cap.omitted
    else result[..remaining] + cap.truncated
  }

  ghost function Appended(p: Prompt, m: Message): Prompt {
    p.(messages := p.messages + [m])
  }

  ghost function WithAssistant(p: Prompt, content: string, calls: seq<ToolCall>): Prompt {
    Appended(p, Assistant(content, calls)).(resultChars := 0)
  }

  ghost function WithResult(p: Prompt, result: string, id: string, cap: Cap): Prompt {
    var text := Enforced(result, cap, p.resultChars);
    Appended(p, Tool(text, id)).(resultChars := p.resultChars + |text|)
  }

  /** The Python slice s[-k:]. */
  function LastSlice<T>(s: seq<T>, k: int): seq<T> {
    if k > 0 then (if k <= |s| then s[|s| - k..] else s)
    else if k == 0 then s
    else if -k <= |s| then s[-k..] else []
  }

  /** The messages of the current session that compaction keeps. */
  ghost function Kept(p: Prompt, keepRecent: int): seq<Message> {
    var current := if p.sessionStart <= |p.messages| then p.messages[p.sessionStart..] else [];
    if |current| > keepRecent then LastSlice(current, keepRecent) else current
  }

  ghost function Compacted(p: Prompt, keepRecent: int): Prompt {
    p.(messages := Repaired(Kept(p, keepRecent)), sessionStart := 0)
  }

  /**
   * Compaction keeps at most keep_recent messages of the session exactly when keep_recent is positive, or is
   * zero with nothing to keep: [-0:] is the whole list and a negative count drops from the front.
   */
  lemma CompactionKeepsAtMost(p: Prompt, k: int)
    requires p.sessionStart <= |p.messages|
    ensures |Kept(p, k)| <= k <==> k >= 1 || (k == 0 && p.sessionStart == |p.messages|)
    ensures k >= 1 ==> |Kept(p, k)| == if |p.messages| - p.sessionStart < k then |p.messages| - p.sessionStart else k
    ensures exists from :: p.sessionStart <= from <= |p.messages| && Kept(p, k) == p.messages[from..]
  {
    var current := p.messages[p.sessionStart..];
    var from := |p.messages| - |Kept(p, k)|;
    assert Kept(p, k) == p.messages[from..];
  }

  /**
   * What compaction leaves, placeholders aside, is the end of the current session: its last keep_recent messages, all
   * of it for keep_recent zero, and all but the first -keep_recent for a negative one.
   */
  lemma CompactedKeeps(p: Prompt, k: int)
    ensures Compacted(p, k).sessionStart == 0 && Compacted(p, k).resultChars == p.resultChars
    ensures p.sessionStart > |p.messages| ==> Compacted(p, k).messages == []
    ensures p.sessionStart <= |p.messages| ==>
              var from := if k > 0 then Max(p.sessionStart, |p.messages| - k)
                          else if p.sessionStart - k <= |p.messages| then p.sessionStart - k else |p.messages|;
              WithoutResults(Compacted(p, k).messages, Dangling(p.messages[from..])) == p.messages[from..]
  {
    RepairLossless(Kept(p, k));
    if p.sessionStart <= |p.messages| {
      var from := if k > 0 then Max(p.sessionStart, |p.messages| - k)
                  else if p.sessionStart - k <= |p.messages| then p.sessionStart - k else |p.messages|;
      assert Kept(p, k) == p.messages[from..];
    } else {
      assert Kept(p, k) == [];
    }
  }

  /** Compaction answers every call it keeps, whatever keep_recent is and wherever the batch stands. */
  lemma CompactionAnswers(p: Prompt, k: int)
    ensures Answered(Compacted(p, k).messages)
  {
    RepairAnswers(Kept(p, k));
  }

  // ----- Expiry of old results -----

  /** The index of the last assistant message, or -1. */
  function LastAssistant(ms: seq<Message>): (r: int)
    ensures -1 <= r < |ms|
    ensures r >= 0 ==> ms[r].Assistant?
    ensures forall j :: r < j < |ms| ==> !ms[j].Assistant?
  {
    if ms == [] then -1 else if ms[|ms| - 1].Assistant? then |ms| - 1 else LastAssistant(ms[..|ms| - 1])
  }

  function ExpireOne(m: Message, notice: string): Message {
    if m.Tool? then Tool(TruncateForHistory(m.content, notice), m.toolUseId) else m
  }

  ghost function Expired(ms: seq<Message>, notice: string): (r: seq<Message>)
    ensures |r| == |ms|
  {
    seq(|ms|, i requires 0 <= i < |ms| => if i < LastAssistant(ms) then ExpireOne(ms[i], notice) else ms[i])
  }

  lemma ExpiryKeepsIds(ms: seq<Message>, notice: string)
    ensures IssuedIds(Expired(ms, notice)) == IssuedIds(ms)
    ensures ResolvedIds(Expired(ms, notice)) == ResolvedIds(ms)
  {
    var r := Expired(ms, notice);
    assert forall i :: 0 <= i < |ms| ==> CallsOf(r[i]) == CallsOf(ms[i]);
    assert forall i :: 0 <= i < |ms| ==> r[i].Tool? == ms[i].Tool?;
    assert forall i :: 0 <= i < |ms| && ms[i].Tool? ==> r[i].toolUseId == ms[i].toolUseId;
    forall id | id in IssuedIds(ms) ensures id in IssuedIds(r) {
      var i, tc :| 0 <= i < |ms| && tc in CallsOf(ms[i]) && tc.id == id && id != "";
      assert r[i] in r && tc in CallsOf(r[i]);
    }
    forall id | id in IssuedIds(r) ensures id in IssuedIds(ms) {
      var i, tc :| 0 <= i < |r| && tc in CallsOf(r[i]) && tc.id == id && id != "";
      assert ms[i] in ms && tc in CallsOf(ms[i]);
    }
    forall id | id in ResolvedIds(ms) ensures id in ResolvedIds(r) {
      var i :| 0 <= i < |ms| && ms[i].Tool? && ms[i].toolUseId == id && id != "";
      assert r[i] in r;
    }
    forall id | id in ResolvedIds(r) ensures id in ResolvedIds(ms) {
      var i :| 0 <= i < |r| && r[i].Tool? && r[i].toolUseId == id && id != "";
      assert ms[i] in ms;
    }
  }

  /**
   * Expiry cuts exactly the results that are longer than the history limit and have an assistant message behind them,
   * to their first characters and the notice. Every other message stays as it is.
   */
  lemma ExpiryShortensOldResults(ms: seq<Message>, notice: string, i: nat)
    requires i < |ms|
    ensures Expired(ms, notice)[i]
         == if ms[i].Tool? && |ms[i].content| > 200 && (exists j :: i < j < |ms| && ms[j].Assistant?)
            then Tool(ms[i].content[..200] + notice, ms[i].toolUseId) else ms[i]
  {
    if exists j :: i < j < |ms| && ms[j].Assistant? {
      assert i < LastAssistant(ms);
    }
  }

  // ----- The per-iteration tool-result budget -----

  /** Characters charged and characters of real tool output among them. */
  datatype Ledger = Ledger(charged: nat, payload: nat)

  function Payload(result: string, cap: Cap, used: int): nat {
    var remaining := cap.chars - used;
    if |result| <= remaining then |result| else if remaining <= 0 then 0 else remaining
  }

  function LedgerAfter(results: seq<string>, cap: Cap): Ledger {
    if results == [] then Ledger(0, 0) else
      var before := LedgerAfter(results[..|results| - 1], cap);
      var last := results[|results| - 1];
      Ledger(before.charged + |Enforced(last, cap, before.charged)|, before.payload + Payload(last, cap, before.charged))
  }

  function Max(a: int, b: int): int {
    if a > b then a else b
  }

  /** The length of the longer notice, k times. */
  function Notices(cap: Cap, k: nat): nat {
    if k == 0 then 0 else Notices(cap, k - 1) + Max(|cap.omitted|, |cap.truncated|)
  }

  /**
   * However many results arrive, the real output among them never exceeds the allowance, and the characters
   * charged exceed it by at most one notice per result. What is charged beyond real output is notices.
   */
  lemma {:induction false} ResultBudget(results: seq<string>, cap: Cap)
    ensures LedgerAfter(results, cap).payload <= Max(cap.chars, 0)
    ensures LedgerAfter(results, cap).charged <= Max(cap.chars, 0) + Notices(cap, |results|)
    ensures LedgerAfter(results, cap).payload <= LedgerAfter(results, cap).charged
            <= LedgerAfter(results, cap).payload + Notices(cap, |results|)
  {
    if results != [] {
      ResultBudget(results[..|results| - 1], cap);
    }
  }

  /** The split of the dynamic token pool between memory, past sessions and the current session. */
  datatype Budgets = Budgets(memory: int, past: int, current: int)

  /** int(pool * ratio), with Python's truncation. */
  function Share(pool: nat, ratio: real): int {
    var x := pool as real * ratio;
    if x >= 0.0 then x.Floor else -((-x).Floor)
  }

  function SplitPool(pool: nat, memoryRatio: real, pastRatio: real): Budgets {
    var memory := Share(pool, memoryRatio);
    var past := Share(pool, pastRatio);
    Budgets(memory, past, pool - memory - past)
  }

  /** A share that is not negative is the pool's part, rounded down, and each budget is its own ratio's share. */
  lemma ShareIs(pool: nat, memoryRatio: real, pastRatio: real)
    ensures var b, x := SplitPool(pool, memoryRatio, pastRatio), pool as real * memoryRatio;
            x >= 0.0 ==> b.memory as real <= x < (b.memory + 1) as real
    ensures var b, y := SplitPool(pool, memoryRatio, pastRatio), pool as real * pastRatio;
            y >= 0.0 ==> b.past as real <= y < (b.past + 1) as real
  {
  }

  /** The budgets add up to the pool, and none is negative when the ratios are a split of the whole. */
  lemma PoolSplit(pool: nat, memoryRatio: real, pastRatio: real)
    ensures var b := SplitPool(pool, memoryRatio, pastRatio); b.memory + b.past + b.current == pool
    ensures memoryRatio >= 0.0 && pastRatio >= 0.0 && memoryRatio + pastRatio <= 1.0 ==>
              var b := SplitPool(pool, memoryRatio, pastRatio); b.memory >= 0 && b.past >= 0 && b.current >= 0
  {
    var x, y, p := pool as real * memoryRatio, pool as real * pastRatio, pool as real;
    if memoryRatio >= 0.0 && pastRatio >= 0.0 && memoryRatio + pastRatio <= 1.0 {
      assert x >= 0.0 && y >= 0.0;
      assert x + y == p * (memoryRatio + pastRatio) <= p;
    }
  }
}
