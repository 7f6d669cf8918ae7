/** backend/llm/tool_name_adapter.py: tool names renamed into the providers' alphabet, and back. */
module ToolNames {
  import opened Text
  import opened Prelude

  const MAX_TOOL_NAME_LEN: int := 128

  predicate IsAllowed(c: char) {
    'a' <= c <= 'z' || 'A' <= c <= 'Z' || '0' <= c <= '9' || c == '_' || c == '-'
  }

  predicate IsDash(c: char) {
    c == '_' || c == '-'
  }

  /** Every maximal run of characters outside the alphabet becomes one underscore. */
  function ReplaceRuns(s: string): string {
    if s == [] then [] else
      var n := |s| - 1;
      ReplaceRuns(s[..n])
      + if IsAllowed(s[n]) then [s[n]] else if n > 0 && !IsAllowed(s[n - 1]) then [] else ['_']
  }

  /** Every maximal run of underscores becomes one underscore. */
  function CollapseUnderscores(s: string): string {
    if s == [] then [] else
      var n := |s| - 1;
      CollapseUnderscores(s[..n]) + if s[n] == '_' && n > 0 && s[n - 1] == '_' then [] else [s[n]]
  }

  function Trim(s: string): string {
    RStripBy(LStripBy(s, IsDash), IsDash)
  }

  function OrTool(s: string): string {
    if s == "" then "tool" else s
  }

  function Cut(s: string): string {
    if |s| > MAX_TOOL_NAME_LEN then RStripBy(s[..MAX_TOOL_NAME_LEN], IsDash) else s
  }

  function SanitizeToolName(name: string): string {
    OrTool(Cut(OrTool(Trim(CollapseUnderscores(ReplaceRuns(OrTool(Strip(name))))))))
  }

  // ----- Sanitizing -----

  ghost predicate AllAllowed(s: string) {
    forall i :: 0 <= i < |s| ==> IsAllowed(s[i])
  }

  ghost predicate NoDoubleUnderscore(s: string) {
    forall i :: 0 < i < |s| && s[i] == '_' ==> s[i - 1] != '_'
  }

  /** The names a provider accepts, in the form the adapter gives them. */
  ghost predicate Clean(s: string) {
    0 < |s| <= MAX_TOOL_NAME_LEN && AllAllowed(s) && NoDoubleUnderscore(s) && !IsDash(s[0]) && !IsDash(s[|s| - 1])
  }

  lemma {:induction false} ReplaceRunsAllowed(s: string)
    ensures AllAllowed(ReplaceRuns(s))
    ensures AllAllowed(s) ==> ReplaceRuns(s) == s
  {
    if s != [] { ReplaceRunsAllowed(s[..|s| - 1]); }
  }

  /** Between two characters of which one is allowed nothing is merged. */
  lemma {:induction false} ReplaceRunsApart(a: string, b: string)
    requires a == "" || b == "" || IsAllowed(a[|a| - 1]) || IsAllowed(b[0])
    ensures ReplaceRuns(a + b) == ReplaceRuns(a) + ReplaceRuns(b)
  {
    hide IsAllowed;
    if b == "" {
      assert a + b == a;
    } else {
      var n := |b| - 1;
      assert (a + b)[..|a + b| - 1] == a + b[..n];
      assert n == 0 ==> b[..n] == "";
      ReplaceRunsApart(a, b[..n]);
    }
  }

  lemma {:induction false} RunIsOneUnderscore(run: string)
    requires run != "" && forall i :: 0 <= i < |run| ==> !IsAllowed(run[i])
    ensures ReplaceRuns(run) == "_"
  {
    hide IsAllowed;
    var n := |run| - 1;
    if n > 0 {
      RunIsOneUnderscore(run[..n]);
    } else {
      assert run[..n] == "";
    }
  }

  /** A run of characters outside the alphabet, with allowed ones around it, becomes exactly one underscore. */
  lemma RunReplaced(before: string, run: string, after: string)
    requires before == "" || IsAllowed(before[|before| - 1])
    requires after == "" || IsAllowed(after[0])
    requires run != "" && forall i :: 0 <= i < |run| ==> !IsAllowed(run[i])
    ensures ReplaceRuns(before + run + after) == ReplaceRuns(before) + "_" + ReplaceRuns(after)
  {
    hide IsAllowed, ReplaceRuns;
    ReplaceRunsApart(before + run, after);
    ReplaceRunsApart(before, run);
    RunIsOneUnderscore(run);
  }

  lemma {:induction false} CollapseApart(a: string, b: string)
    requires a == "" || b == "" || a[|a| - 1] != '_' || b[0] != '_'
    ensures CollapseUnderscores(a + b) == CollapseUnderscores(a) + CollapseUnderscores(b)
  {
    if b == "" {
      assert a + b == a;
    } else {
      var n := |b| - 1;
      assert (a + b)[..|a + b| - 1] == a + b[..n];
      assert n == 0 ==> b[..n] == "";
      CollapseApart(a, b[..n]);
    }
  }

  lemma {:induction false} UnderscoresAreOne(run: string)
    requires run != "" && forall i :: 0 <= i < |run| ==> run[i] == '_'
    ensures CollapseUnderscores(run) == "_"
  {
    var n := |run| - 1;
    if n > 0 {
      UnderscoresAreOne(run[..n]);
    } else {
      assert run[..n] == "";
    }
  }

  /** A run of underscores becomes exactly one, and nothing around it changes. */
  lemma UnderscoresCollapsed(before: string, run: string, after: string)
    requires (before == "" || before[|before| - 1] != '_') && (after == "" || after[0] != '_')
    requires run != "" && forall i :: 0 <= i < |run| ==> run[i] == '_'
    ensures CollapseUnderscores(before + run + after) == CollapseUnderscores(before) + "_" + CollapseUnderscores(after)
  {
    hide CollapseUnderscores;
    CollapseApart(before + run, after);
    CollapseApart(before, run);
    UnderscoresAreOne(run);
  }

  lemma {:induction false} CollapseEnd(s: string)
    requires s != []
    ensures CollapseUnderscores(s) != [] && CollapseUnderscores(s)[|CollapseUnderscores(s)| - 1] == s[|s| - 1]
  {
    if |s| > 1 { CollapseEnd(s[..|s| - 1]); }
  }

  lemma {:induction false} CollapseSingle(s: string)
    ensures NoDoubleUnderscore(CollapseUnderscores(s))
  {
    if s != [] {
      CollapseSingle(s[..|s| - 1]);
      if |s| > 1 { CollapseEnd(s[..|s| - 1]); }
    }
  }

  lemma {:induction false} CollapseAllowed(s: string)
    requires AllAllowed(s)
    ensures AllAllowed(CollapseUnderscores(s))
    ensures NoDoubleUnderscore(s) ==> CollapseUnderscores(s) == s
  {
    hide IsAllowed;
    if s != [] { CollapseAllowed(s[..|s| - 1]); }
  }

  lemma SliceAllowed(s: string, lo: nat, hi: nat)
    requires lo <= hi <= |s| && AllAllowed(s) && NoDoubleUnderscore(s)
    ensures AllAllowed(s[lo..hi]) && NoDoubleUnderscore(s[lo..hi])
  {
    hide IsAllowed;
    assert forall i :: 0 <= i < hi - lo ==> s[lo..hi][i] == s[lo + i];
  }

  lemma TrimSlice(s: string) returns (lo: nat, hi: nat)
    ensures lo <= hi <= |s| && Trim(s) == s[lo..hi]
    ensures Trim(s) != [] ==> !IsDash(Trim(s)[0]) && !IsDash(Trim(s)[|Trim(s)| - 1])
    ensures s != [] && !IsDash(s[0]) && !IsDash(s[|s| - 1]) ==> Trim(s) == s
  {
    var l := LStripBy(s, IsDash);
    lo := |s| - |l|;
    hi := lo + |Trim(s)|;
  }

  /** Trimmed and cut to length, an allowed name without double underscores is clean. */
  lemma CutClean(s: string)
    requires s != "" && AllAllowed(s) && NoDoubleUnderscore(s) && !IsDash(s[0]) && !IsDash(s[|s| - 1])
    ensures Clean(Cut(s)) && (Clean(s) ==> Cut(s) == s)
  {
    hide IsAllowed;
    if |s| > MAX_TOOL_NAME_LEN {
      var cut := s[..MAX_TOOL_NAME_LEN];
      var r := RStripBy(cut, IsDash);
      assert cut[0] == s[0];
      assert r == s[0..|r|];
      SliceAllowed(s, 0, |r|);
    }
  }

  lemma ToolIsClean()
    ensures Clean("tool") && NoDoubleUnderscore("tool")
  {
  }

  /** Replaced, collapsed and trimmed, a string has the right characters and the right ends, and a clean one is unchanged. */
  lemma NormalizedShape(raw: string)
    ensures var t := Trim(CollapseUnderscores(ReplaceRuns(raw)));
            AllAllowed(t) && NoDoubleUnderscore(t) && (t != "" ==> !IsDash(t[0]) && !IsDash(t[|t| - 1]))
            && (Clean(raw) ==> t == raw)
  {
    hide IsAllowed, ReplaceRuns, CollapseUnderscores, Trim, NoDoubleUnderscore;
    var replaced := ReplaceRuns(raw);
    var collapsed := CollapseUnderscores(replaced);
    ReplaceRunsAllowed(raw);
    CollapseSingle(replaced);
    CollapseAllowed(replaced);
    var lo, hi := TrimSlice(collapsed);
    SliceAllowed(collapsed, lo, hi);
  }

  /** Whatever the name, the sanitized name is clean; and exactly the clean names are left as they are. */
  lemma SanitizeClean(name: string)
    ensures Clean(SanitizeToolName(name))
    ensures SanitizeToolName(name) == name <==> Clean(name)
  {
    hide IsAllowed, ReplaceRuns, CollapseUnderscores, Trim, Strip, Cut, NoDoubleUnderscore;
    ToolIsClean();
    var raw := OrTool(Strip(name));
    NormalizedShape(raw);
    CutClean(OrTool(Trim(CollapseUnderscores(ReplaceRuns(raw)))));
    if Clean(name) {
      CleanIsStripped(name);
    }
  }

  ghost predicate AllDashes(s: string) {
    forall i :: 0 <= i < |s| ==> IsDash(s[i])
  }

  /** m is s without the dashes at both ends. */
  ghost predicate WithoutEnds(s: string, m: string) {
    (m == "" || (!IsDash(m[0]) && !IsDash(m[|m| - 1])))
    && exists lo: nat :: lo + |m| <= |s| && AllDashes(s[..lo]) && m == s[lo..lo + |m|] && AllDashes(s[lo + |m|..])
  }

  lemma TrimmedOff(s: string) returns (lo: nat)
    ensures lo + |Trim(s)| <= |s| && Trim(s) == s[lo..lo + |Trim(s)|]
    ensures AllDashes(s[..lo]) && AllDashes(s[lo + |Trim(s)|..])
  {
    hide IsDash;
    var l := LStripBy(s, IsDash);
    lo := |s| - |l|;
    DroppedRight(l);
    assert s[lo + |Trim(s)|..] == l[|Trim(s)|..];
  }

  lemma DroppedRight(l: string)
    ensures AllDashes(l[|RStripBy(l, IsDash)|..])
  {
    hide IsDash;
  }

  lemma TrimIs(s: string)
    ensures WithoutEnds(s, Trim(s))
  {
    hide IsDash, AllDashes;
    var from, to := TrimSlice(s);
    hide Trim;
    var lo := TrimmedOff(s);
  }

  /** r is what is left of a trimmed name: all of it up to 128 characters, else the first 128 without the dashes they end in. */
  ghost predicate CutTo(m: string, r: string) {
    if m == "" then r == "tool"
    else if |m| <= 128 then r == m
    else 0 < |r| <= 128 && r == m[..|r|] && !IsDash(r[|r| - 1]) && AllDashes(m[|r|..128])
  }

  /** A sanitized name is the stripped one, or "tool", with its runs replaced and collapsed, its ends trimmed, and cut to length. */
  lemma SanitizeSays(name: string)
    ensures var raw := if Strip(name) == "" then "tool" else Strip(name);
            exists m :: WithoutEnds(CollapseUnderscores(ReplaceRuns(raw)), m) && CutTo(m, SanitizeToolName(name))
  {
    hide ReplaceRuns, CollapseUnderscores, Strip, Trim, WithoutEnds;
    var raw := if Strip(name) == "" then "tool" else Strip(name);
    var c := CollapseUnderscores(ReplaceRuns(raw));
    TrimIs(c);
    CutIs(Trim(c), c);
    assert WithoutEnds(c, Trim(c)) && CutTo(Trim(c), SanitizeToolName(name));
  }

  lemma CutIs(m: string, s: string)
    requires WithoutEnds(s, m)
    ensures CutTo(m, OrTool(Cut(OrTool(m))))
  {
    if |m| > 128 {
      var cut := m[..128];
      var r := RStripBy(cut, IsDash);
      assert cut[0] == m[0] && !IsDash(cut[0]);
      assert m[|r|..128] == cut[|r|..];
    }
  }

  lemma CleanEnds(name: string)
    requires Clean(name)
    ensures Stripped(name)
  {
    assert IsAllowed(name[0]) && IsAllowed(name[|name| - 1]);
  }

  lemma CleanIsStripped(name: string)
    requires Clean(name)
    ensures Strip(name) == name
  {
    hide Strip;
    CleanEnds(name);
    StripStripped(name);
  }

  lemma SanitizeIdempotent(name: string)
    ensures SanitizeToolName(SanitizeToolName(name)) == SanitizeToolName(name)
  {
    SanitizeClean(name);
    SanitizeClean(SanitizeToolName(name));
  }

  // ----- Suffixes -----

  /** The Python slice s[:k]. */
  function Prefix(s: string, k: int): string {
    if k >= 0 then (if k <= |s| then s[..k] else s) else if |s| + k >= 0 then s[..|s| + k] else []
  }

  function WithSuffix(base: string, suffix: nat): string {
    var tail := "_" + Decimal(suffix);
    OrTool(RStripBy(Prefix(base, MAX_TOOL_NAME_LEN - |tail|), IsDash)) + tail
  }

  /** Different suffixes give different names, however the stem is cut: the digits behind the last underscore differ. */
  lemma WithSuffixInjective(base: string, i: nat, j: nat)
    requires WithSuffix(base, i) == WithSuffix(base, j)
    ensures i == j
  {
    var r, di, dj := WithSuffix(base, i), Decimal(i), Decimal(j);
    DigitsBehind(base, i);
    DigitsBehind(base, j);
    hide WithSuffix, Decimal;
    assert '_' !in DIGITS;
    assert |di| == |dj|;
    assert di == dj;
    DecimalInjective(i, j);
  }

  lemma DigitsBehind(base: string, i: nat)
    ensures var r, d := WithSuffix(base, i), Decimal(i);
            |r| > |d| && r[|r| - |d|..] == d && r[|r| - 1 - |d|] == '_'
  {
  }

  lemma UnderscoreAllowed()
    ensures IsAllowed('_')
  {
  }

  lemma DigitsAllowed(i: nat)
    ensures AllAllowed(Decimal(i))
  {
    assert forall c :: c in DIGITS ==> IsAllowed(c);
  }

  /** A clean name that leaves room for the suffix keeps all of its characters in front of it. */
  lemma WithSuffixKeeps(base: string, i: nat)
    requires Clean(base) && |base| + 1 + |Decimal(i)| <= 128
    ensures WithSuffix(base, i) == base + "_" + Decimal(i)
  {
    hide IsAllowed, NoDoubleUnderscore;
  }

  /** A suffixed name is never empty and uses only the alphabet, and it fits as long as the suffix has at most 126 digits. */
  lemma WithSuffixLegal(base: string, i: nat)
    requires Clean(base)
    ensures WithSuffix(base, i) != "" && AllAllowed(WithSuffix(base, i))
    ensures |WithSuffix(base, i)| <= MAX_TOOL_NAME_LEN <==> |Decimal(i)| <= 126
  {
    hide IsAllowed, Decimal, NoDoubleUnderscore;
    assert IsAllowed('_') by { UnderscoreAllowed(); }
    ToolIsClean();
    DigitsAllowed(i);
    var cut := Prefix(base, MAX_TOOL_NAME_LEN - 1 - |Decimal(i)|);
    var stem := RStripBy(cut, IsDash);
    assert AllAllowed(stem);
    if cut != [] {
      assert cut[0] == base[0];
    }
  }

  lemma {:induction false} DecimalMonotone(a: nat, b: nat)
    requires a <= b
    ensures |Decimal(a)| <= |Decimal(b)|
  {
    if a >= 10 { DecimalMonotone(a / 10, b / 10); }
  }

  // ----- The adapter -----

  /** The two maps are inverse to each other. */
  ghost predicate Inverse(canonicalOf: map<string, string>, originalOf: map<string, string>) {
    (forall o :: o in canonicalOf ==> canonicalOf[o] in originalOf && originalOf[canonicalOf[o]] == o)
    && forall c :: c in originalOf ==> originalOf[c] in canonicalOf && canonicalOf[originalOf[c]] == c
  }

  lemma CanonicalInjective(canonicalOf: map<string, string>, originalOf: map<string, string>, a: string, b: string)
    requires Inverse(canonicalOf, originalOf) && a in canonicalOf && b in canonicalOf
    ensures canonicalOf[a] == canonicalOf[b] <==> a == b
  {
  }

  class ToolNameAdapter {
    var canonicalOf: map<string, string>
    var originalOf: map<string, string>

    ghost predicate Valid()
      reads this
    {
      Inverse(canonicalOf, originalOf)
    }

    constructor ()
      ensures Valid() && canonicalOf == map[] && originalOf == map[]
    {
      canonicalOf, originalOf := map[], map[];
    }

    /** The search for a free suffix: it ends after at most one more try than there are names. */
    method FreeSuffix(candidate: string) returns (free: string)
      requires Clean(candidate)
      ensures free !in originalOf && free != "" && AllAllowed(free)
      ensures |Decimal(|originalOf| + 2)| <= 126 ==> |free| <= MAX_TOOL_NAME_LEN
      ensures exists suffix: nat :: 2 <= suffix <= |originalOf| + 2 && free == WithSuffix(candidate, suffix)
                && forall s: nat :: 2 <= s < suffix ==> WithSuffix(candidate, s) in originalOf
    {
      hide WithSuffix, Clean, AllAllowed;
      var suffix: nat := 2;
      ghost var tried: set<string> := {};
      free := WithSuffix(candidate, suffix);
      while free in originalOf
        invariant suffix >= 2 && free == WithSuffix(candidate, suffix)
        invariant |tried| == suffix - 2 && tried <= originalOf.Keys
        invariant forall s: nat :: 2 <= s < suffix ==> WithSuffix(candidate, s) in tried
        invariant forall t :: t in tried ==> exists s: nat :: s < suffix && t == WithSuffix(candidate, s)
        decreases |originalOf| - |tried|
      {
        if free in tried {
          ghost var s: nat :| s < suffix && free == WithSuffix(candidate, s);
          WithSuffixInjective(candidate, s, suffix);
        }
        Pigeonhole(tried + {free}, originalOf);
        tried := tried + {free};
        suffix := suffix + 1;
        free := WithSuffix(candidate, suffix);
      }
      Pigeonhole(tried, originalOf);
      WithSuffixLegal(candidate, suffix);
      DecimalMonotone(suffix, |originalOf| + 2);
    }

    /** Stable for a known name; a fresh, legal and unused canonical name for a new one. */
    method ToCanonical(original: string) returns (canonical: string)
      requires Valid()
      modifies this
      ensures Valid()
      ensures original in old(canonicalOf) ==>
                canonical == old(canonicalOf[original]) && canonicalOf == old(canonicalOf) && originalOf == old(originalOf)
      ensures original !in old(canonicalOf) ==>
                canonical !in old(originalOf) && canonical != "" && AllAllowed(canonical)
                && (|Decimal(|old(originalOf)| + 2)| <= 126 ==> |canonical| <= MAX_TOOL_NAME_LEN)
                && canonicalOf == old(canonicalOf)[original := canonical] && originalOf == old(originalOf)[canonical := original]
      ensures original !in old(canonicalOf) && SanitizeToolName(original) !in old(originalOf) ==>
                canonical == SanitizeToolName(original)
      ensures original !in old(canonicalOf) && SanitizeToolName(original) in old(originalOf) ==>
                exists suffix: nat :: 2 <= suffix <= |old(originalOf)| + 2 && canonical == WithSuffix(SanitizeToolName(original), suffix)
                  && forall s: nat :: 2 <= s < suffix ==> WithSuffix(SanitizeToolName(original), s) in old(originalOf)
    {
      hide SanitizeToolName, IsAllowed, WithSuffix, Decimal;
      if original in canonicalOf {
        return canonicalOf[original];
      }
      canonical := SanitizeToolName(original);
      SanitizeClean(original);
      if canonical in originalOf && originalOf[canonical] != original {
        canonical := FreeSuffix(canonical);
      }
      canonicalOf := canonicalOf[original := canonical];
      originalOf := originalOf[canonical := original];
    }

    function ToOriginal(canonical: string): string
      reads this
    {
      if canonical in originalOf then originalOf[canonical] else canonical
    }
  }

  lemma Pigeonhole(names: set<string>, taken: map<string, string>)
    requires names <= taken.Keys
    ensures |names| <= |taken|
  {
    SubsetSize(names, taken.Keys);
  }
}
