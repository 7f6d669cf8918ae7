/** Draining a shell's prompt: counting a sentinel piece by piece until it was seen twice. */
module ShellDrain {
  import opened ShellStream

  /** bytes.count(pat): occurrences that do not overlap. */
  function Occurrences(s: Bytes, pat: Bytes): nat
    requires pat != []
    decreases |s|
  {
    var i := Find(s, pat, 0);
    if i < 0 then 0 else 1 + Occurrences(s[i + |pat|..], pat)
  }

  /** What the drain counts: the occurrences inside each piece. */
  function SeenIn(chunks: seq<Bytes>, pat: Bytes): nat
    requires pat != []
  {
    if chunks == [] then 0 else SeenIn(chunks[..|chunks| - 1], pat) + Occurrences(chunks[|chunks| - 1], pat)
  }

  /** The pieces that arrive before the deadline; an empty one is skipped, not an end. */
  function Arrived(events: seq<Receive>): seq<Bytes> {
    if events == [] || events[0].Timeout? then [] else [events[0].data] + Arrived(events[1..])
  }

  lemma {:induction false} ArrivedAre(events: seq<Receive>, i: nat)
    requires i <= |events| && forall k :: 0 <= k < i ==> events[k].Chunk?
    ensures |Arrived(events)| >= i && forall k :: 0 <= k < i ==> Arrived(events)[k] == events[k].data
    ensures i == |events| || events[i].Timeout? ==> |Arrived(events)| == i
  {
    if i > 0 {
      assert forall k :: 0 <= k < i - 1 ==> events[1..][k] == events[k + 1];
      ArrivedAre(events[1..], i - 1);
    }
  }

  lemma {:induction false} SeenGrows(chunks: seq<Bytes>, k: nat, pat: Bytes)
    requires pat != [] && k <= |chunks|
    ensures SeenIn(chunks[..k], pat) <= SeenIn(chunks, pat)
  {
    hide Occurrences;
    if k < |chunks| {
      assert chunks[..|chunks| - 1][..k] == chunks[..k];
      SeenGrows(chunks[..|chunks| - 1], k, pat);
    } else {
      assert chunks[..k] == chunks;
    }
  }

  /** Ends after the piece in which the count reaches two, or fails at the deadline. */
  method DrainShellPrompt(events: seq<Receive>, sentinel: Bytes) returns (drained: bool, used: nat)
    requires sentinel != []
    ensures drained <==> SeenIn(Arrived(events), sentinel) >= 2
    ensures drained ==> 0 < used <= |Arrived(events)| && SeenIn(Arrived(events)[..used], sentinel) >= 2
                        && SeenIn(Arrived(events)[..used - 1], sentinel) < 2
  {
    var seen: nat := 0;
    used := 0;
    while seen < 2
      invariant used <= |events| && forall k :: 0 <= k < used ==> events[k].Chunk?
      invariant used <= |Arrived(events)| && seen == SeenIn(Arrived(events)[..used], sentinel)
      invariant used > 0 ==> SeenIn(Arrived(events)[..used - 1], sentinel) < 2
      decreases |events| - used
    {
      hide Occurrences;
      ArrivedAre(events, used);
      if used == |events| || events[used].Timeout? {
        assert Arrived(events)[..used] == Arrived(events);
        return false, used;
      }
      ArrivedAre(events, used + 1);
      var all := Arrived(events);
      assert all[..used + 1][..used] == all[..used];
      var chunk := events[used].data;
      used := used + 1;
      if chunk == [] {
        NothingInNothing(sentinel);
        continue;
      }
      seen := seen + Occurrences(chunk, sentinel);
    }
    SeenGrows(Arrived(events), used, sentinel);
    return true, used;
  }

  lemma NothingInNothing(pat: Bytes)
    requires pat != []
    ensures Occurrences([], pat) == 0
  {
  }

  // ----- Where the sentinel occurs -----

  function Matches(s: Bytes, pat: Bytes): set<nat> {
    set i: nat | 0 <= i <= |s| && MatchAt(s, pat, i)
  }

  /** No two occurrences overlap. */
  ghost predicate Apart(s: Bytes, pat: Bytes) {
    forall i: nat, j: nat :: i < j && MatchAt(s, pat, i) && MatchAt(s, pat, j) ==> i + |pat| <= j
  }

  function Shifted(positions: set<nat>, d: nat): set<nat> {
    set i | i in positions :: i + d
  }

  lemma {:induction false} ShiftedSize(positions: set<nat>, d: nat)
    ensures |Shifted(positions, d)| == |positions|
  {
    if i :| i in positions {
      var rest := positions - {i};
      ShiftedSize(rest, d);
      forall x ensures x in Shifted(positions, d) <==> x in Shifted(rest, d) + {i + d} {
        if y :| y in positions && x == y + d { assert y == i || y in rest; }
      }
      assert Shifted(positions, d) == Shifted(rest, d) + {i + d} && i + d !in Shifted(rest, d);
    } else {
      assert Shifted(positions, d) == {};
    }
  }

  lemma MatchInRest(s: Bytes, pat: Bytes, d: nat, i: nat)
    requires d <= |s|
    ensures MatchAt(s[d..], pat, i) <==> MatchAt(s, pat, d + i)
  {
    if d + i + |pat| <= |s| {
      assert s[d..][i..i + |pat|] == s[d + i..d + i + |pat|];
    }
  }

  lemma MatchInFront(a: Bytes, b: Bytes, pat: Bytes, i: nat)
    requires i + |pat| <= |a|
    ensures MatchAt(a + b, pat, i) <==> MatchAt(a, pat, i)
  {
    assert (a + b)[i..i + |pat|] == a[i..i + |pat|];
  }

  lemma ApartParts(a: Bytes, b: Bytes, pat: Bytes)
    requires Apart(a + b, pat)
    ensures Apart(a, pat) && Apart(b, pat)
  {
    forall i: nat, j: nat | i < j && MatchAt(a, pat, i) && MatchAt(a, pat, j) ensures i + |pat| <= j {
      MatchInFront(a, b, pat, i);
      MatchInFront(a, b, pat, j);
    }
    assert (a + b)[|a|..] == b;
    forall i: nat, j: nat | i < j && MatchAt(b, pat, i) && MatchAt(b, pat, j) ensures i + |pat| <= j {
      MatchInRest(a + b, pat, |a|, i);
      MatchInRest(a + b, pat, |a|, j);
    }
  }

  /** Where occurrences do not overlap, counting them is counting the places where one starts. */
  lemma {:induction false} OccurrencesAreMatches(s: Bytes, pat: Bytes)
    requires pat != [] && Apart(s, pat)
    ensures Occurrences(s, pat) == |Matches(s, pat)|
    decreases |s|
  {
    hide Apart;
    var i := Find(s, pat, 0);
    if i < 0 {
      assert Matches(s, pat) == {};
    } else {
      var d := i + |pat|;
      var rest := s[d..];
      assert s == s[..d] + rest;
      ApartParts(s[..d], rest, pat);
      OccurrencesAreMatches(rest, pat);
      MatchesAfterFirst(s, pat, i);
      ShiftedSize(Matches(rest, pat), d);
      assert i !in Shifted(Matches(rest, pat), d);
    }
  }

  lemma MatchesAfterFirst(s: Bytes, pat: Bytes, i: nat)
    requires pat != [] && Apart(s, pat) && MatchAt(s, pat, i) && forall j: nat :: j < i ==> !MatchAt(s, pat, j)
    ensures Matches(s, pat) == {i} + Shifted(Matches(s[i + |pat|..], pat), i + |pat|)
  {
    hide MatchAt;
    MatchFits(s, pat, i);
    var d := i + |pat|;
    forall j: nat | j in Matches(s, pat) && j != i ensures j in Shifted(Matches(s[d..], pat), d) {
      assert j >= d;
      MatchInRest(s, pat, d, j - d);
      MatchFits(s[d..], pat, j - d);
      assert j - d in Matches(s[d..], pat);
    }
    forall j: nat | j in Shifted(Matches(s[d..], pat), d) ensures j in Matches(s, pat) {
      MatchInRest(s, pat, d, j - d);
      MatchFits(s, pat, j);
    }
  }

  lemma MatchFits(s: Bytes, pat: Bytes, i: nat)
    requires MatchAt(s, pat, i)
    ensures i + |pat| <= |s|
  {
  }

  // ----- Occurrences across a cut -----

  /** The occurrences that begin before a cut and end behind it. */
  function Straddlers(a: Bytes, b: Bytes, pat: Bytes): set<nat> {
    set i: nat | 0 <= i < |a| && |a| < i + |pat| && MatchAt(a + b, pat, i)
  }

  lemma MatchesOfParts(a: Bytes, b: Bytes, pat: Bytes)
    requires pat != []
    ensures Matches(a + b, pat) == Matches(a, pat) + Straddlers(a, b, pat) + Shifted(Matches(b, pat), |a|)
  {
    hide MatchAt;
    assert (a + b)[|a|..] == b;
    forall i: nat ensures i in Matches(a + b, pat) <==> i in Matches(a, pat) + Straddlers(a, b, pat) + Shifted(Matches(b, pat), |a|) {
      if MatchAt(a, pat, i) { MatchFits(a, pat, i); }
      if MatchAt(a + b, pat, i) { MatchFits(a + b, pat, i); }
      if i + |pat| <= |a| {
        MatchInFront(a, b, pat, i);
      } else if i >= |a| {
        MatchInRest(a + b, pat, |a|, i - |a|);
        assert i in Matches(a + b, pat) ==> i - |a| in Matches(b, pat);
      }
    }
  }

  lemma MatchesConcat(a: Bytes, b: Bytes, pat: Bytes)
    requires pat != []
    ensures |Matches(a + b, pat)| == |Matches(a, pat)| + |Matches(b, pat)| + |Straddlers(a, b, pat)|
  {
    hide MatchAt;
    var front, across, back := Matches(a, pat), Straddlers(a, b, pat), Shifted(Matches(b, pat), |a|);
    MatchesOfParts(a, b, pat);
    ShiftedSize(Matches(b, pat), |a|);
    forall i | i in front ensures i + |pat| <= |a| { MatchFits(a, pat, i); }
    assert front !! across && (front + across) !! back;
  }

  /** How many occurrences of the whole are cut by some boundary between pieces. */
  function Straddled(chunks: seq<Bytes>, pat: Bytes): nat {
    if chunks == [] then 0 else
      var n := |chunks| - 1;
      Straddled(chunks[..n], pat) + |Straddlers(Joined(chunks[..n]), chunks[n], pat)|
  }

  ghost predicate NoneStraddles(chunks: seq<Bytes>, pat: Bytes) {
    forall k :: 0 <= k < |chunks| ==> Straddlers(Joined(chunks[..k]), chunks[k], pat) == {}
  }

  lemma {:induction false} StraddledNone(chunks: seq<Bytes>, pat: Bytes)
    ensures Straddled(chunks, pat) == 0 <==> NoneStraddles(chunks, pat)
  {
    hide Straddlers;
    if chunks != [] {
      var n := |chunks| - 1;
      StraddledNone(chunks[..n], pat);
      assert forall k :: 0 <= k < n ==> chunks[..n][..k] == chunks[..k] && chunks[..n][k] == chunks[k];
      var last := Straddlers(Joined(chunks[..n]), chunks[n], pat);
      assert |last| == 0 <==> last == {};
    }
  }

  /** What the drain counts falls short of the whole stream by exactly the occurrences that are cut. */
  lemma {:induction false} SeenAndStraddled(chunks: seq<Bytes>, pat: Bytes)
    requires pat != [] && Apart(Joined(chunks), pat)
    ensures SeenIn(chunks, pat) + Straddled(chunks, pat) == Occurrences(Joined(chunks), pat)
  {
    hide Apart, Straddlers, Occurrences, Matches;
    if chunks == [] {
      NothingInNothing(pat);
    } else {
      var n := |chunks| - 1;
      var front, last := Joined(chunks[..n]), chunks[n];
      ApartParts(front, last, pat);
      SeenAndStraddled(chunks[..n], pat);
      OccurrencesAreMatches(front, pat);
      OccurrencesAreMatches(last, pat);
      OccurrencesAreMatches(front + last, pat);
      MatchesConcat(front, last, pat);
    }
  }

  /** The drain counts what the whole stream holds if and only if no occurrence is cut by a boundary between pieces. */
  lemma SeenExact(chunks: seq<Bytes>, pat: Bytes)
    requires pat != [] && Apart(Joined(chunks), pat)
    ensures SeenIn(chunks, pat) == Occurrences(Joined(chunks), pat) <==> NoneStraddles(chunks, pat)
  {
    hide Apart, NoneStraddles;
    SeenAndStraddled(chunks, pat);
    StraddledNone(chunks, pat);
  }

  /** The drain ends in time if and only if two occurrences are left when those that are cut are not counted. */
  lemma DrainExact(events: seq<Receive>, pat: Bytes)
    requires pat != [] && Apart(Joined(Arrived(events)), pat)
    ensures SeenIn(Arrived(events), pat) >= 2
      <==> Occurrences(Joined(Arrived(events)), pat) >= 2 + Straddled(Arrived(events), pat)
  {
    hide Apart;
    SeenAndStraddled(Arrived(events), pat);
  }

  // ----- A stream the drain misses -----

  /** What the drain command prints. */
  function DrainOutput(pat: Bytes): Bytes {
    pat + [NEWLINE] + pat + [NEWLINE]
  }

  /** The same bytes, cut inside both sentinels. */
  function CutOutput(pat: Bytes, k: nat): seq<Bytes>
    requires k <= |pat|
  {
    [pat[..k], pat[k..] + [NEWLINE] + pat[..k], pat[k..] + [NEWLINE]]
  }

  lemma NoMatchOverNewline(s: Bytes, pat: Bytes, i: nat, j: nat)
    requires NEWLINE !in pat && i <= j < i + |pat| && j < |s| && s[j] == NEWLINE
    ensures !MatchAt(s, pat, i)
  {
    if i + |pat| <= |s| {
      assert s[i..i + |pat|][j - i] == NEWLINE;
    }
  }

  lemma NoOccurrence(s: Bytes, pat: Bytes)
    requires pat != [] && forall i: nat :: !MatchAt(s, pat, i)
    ensures Occurrences(s, pat) == 0
  {
  }

  lemma PieceHoldsNone(s: Bytes, pat: Bytes, at: nat)
    requires NEWLINE !in pat && at < |s| && s[at] == NEWLINE && at < |pat| && |s| - 1 - at < |pat|
    ensures Occurrences(s, pat) == 0
  {
    forall i: nat ensures !MatchAt(s, pat, i) {
      if i <= at && at < i + |pat| { NoMatchOverNewline(s, pat, i, at); }
    }
    NoOccurrence(s, pat);
  }

  lemma PieceTooShort(s: Bytes, pat: Bytes)
    requires |s| < |pat|
    ensures Occurrences(s, pat) == 0
  {
    NoOccurrence(s, pat);
  }

  lemma ThreePieces(a: Bytes, b: Bytes, c: Bytes, pat: Bytes)
    requires pat != []
    ensures Joined([a, b, c]) == a + b + c
    ensures SeenIn([a, b, c], pat) == Occurrences(a, pat) + Occurrences(b, pat) + Occurrences(c, pat)
  {
    hide Occurrences;
    assert [a, b, c][..2] == [a, b] && [a, b][..1] == [a] && [a][..0] == [];
    assert Joined([a]) == a && Joined([a, b]) == a + b;
    assert SeenIn([a], pat) == Occurrences(a, pat) && SeenIn([a, b], pat) == Occurrences(a, pat) + Occurrences(b, pat);
  }

  lemma OnePiece(s: Bytes, pat: Bytes)
    requires pat != []
    ensures SeenIn([s], pat) == Occurrences(s, pat)
  {
    hide Occurrences;
    assert [s][..0] == [];
  }

  lemma CutJoins(pat: Bytes, k: nat)
    requires 0 < k < |pat|
    ensures Joined(CutOutput(pat, k)) == DrainOutput(pat)
  {
    var a, b, n := pat[..k], pat[k..], [NEWLINE];
    assert pat == a + b;
    ThreePieces(a, b + n + a, b + n, pat);
    assert a + (b + n + a) + (b + n) == a + b + n + (a + b) + n;
  }

  lemma CutOutputIs(pat: Bytes, k: nat)
    requires 0 < k < |pat|
    ensures var cut := CutOutput(pat, k);
      |cut| == 3 && cut == [cut[0], cut[1], cut[2]] && |cut[0]| == k
      && |cut[1]| == |pat| + 1 && cut[1][|pat| - k] == NEWLINE && |cut[2]| == |pat| - k + 1 && cut[2][|pat| - k] == NEWLINE
  {
  }

  /** What arrives: a prompt and other bytes around what the drain command prints. */
  function Prompted(before: Bytes, pat: Bytes, after: Bytes): Bytes {
    before + DrainOutput(pat) + after
  }

  lemma PromptedBare(pat: Bytes)
    ensures Prompted([], pat, []) == DrainOutput(pat)
  {
  }

  lemma PromptedBytes(before: Bytes, pat: Bytes, after: Bytes)
    ensures var s, n, m := Prompted(before, pat, after), |before|, |pat|;
      |s| == n + 2 * m + 2 + |after| && s[n + m] == NEWLINE && s[n + 2 * m + 1] == NEWLINE
      && s[n..n + m] == pat && s[n + m + 1..n + m + 1 + m] == pat
      && (forall j :: 0 <= j < n ==> s[j] in before) && (forall j :: n + 2 * m + 2 <= j < |s| ==> s[j] in after)
  {
  }

  lemma NoMatchWithoutFirst(s: Bytes, pat: Bytes, i: nat)
    requires pat != [] && (i < |s| ==> s[i] != pat[0])
    ensures !MatchAt(s, pat, i)
  {
    if i + |pat| <= |s| { assert s[i..i + |pat|][0] == s[i]; }
  }

  /** Around the two lines, nothing begins like the sentinel. */
  lemma PromptedMatches(before: Bytes, pat: Bytes, after: Bytes, i: nat)
    requires pat != [] && NEWLINE !in pat && pat[0] !in before && pat[0] !in after
    ensures MatchAt(Prompted(before, pat, after), pat, i) <==> i == |before| || i == |before| + |pat| + 1
  {
    hide Prompted;
    var s, n, m := Prompted(before, pat, after), |before|, |pat|;
    PromptedBytes(before, pat, after);
    if i < n || i >= n + 2 * m + 2 {
      NoMatchWithoutFirst(s, pat, i);
    } else if i <= n + m < i + m {
      NoMatchOverNewline(s, pat, i, n + m);
    } else if i <= n + 2 * m + 1 < i + m {
      NoMatchOverNewline(s, pat, i, n + 2 * m + 1);
    }
  }

  /** The sentinel begins and ends alike, but in what arrives its occurrences do not overlap, and there are two. */
  lemma PromptedApart(before: Bytes, pat: Bytes, after: Bytes)
    requires pat != [] && NEWLINE !in pat && pat[0] !in before && pat[0] !in after
    ensures Apart(Prompted(before, pat, after), pat) && Occurrences(Prompted(before, pat, after), pat) == 2
  {
    hide MatchAt;
    var s := Prompted(before, pat, after);
    forall i: nat ensures MatchAt(s, pat, i) <==> i == |before| || i == |before| + |pat| + 1 {
      PromptedMatches(before, pat, after, i);
    }
    assert Matches(s, pat) == {|before|, |before| + |pat| + 1};
    OccurrencesAreMatches(s, pat);
  }

  /**
   * The drain of what its command prints, with any prompt around it that holds no byte like the sentinel's first, ends well
   * if and only if no boundary between pieces cuts one of the two sentinels.
   */
  lemma DrainEndsExact(events: seq<Receive>, before: Bytes, pat: Bytes, after: Bytes)
    requires pat != [] && NEWLINE !in pat && pat[0] !in before && pat[0] !in after
    requires Joined(Arrived(events)) == Prompted(before, pat, after)
    ensures SeenIn(Arrived(events), pat) >= 2 <==> NoneStraddles(Arrived(events), pat)
  {
    hide Apart, NoneStraddles, Occurrences, Straddled;
    PromptedApart(before, pat, after);
    DrainExact(events, pat);
    StraddledNone(Arrived(events), pat);
  }

  /**
   * For every sentinel of two bytes or more and every cut inside it: the whole output holds two sentinels, and received
   * at once it ends the drain; cut like this it counts none, and the drain fails.
   */
  lemma DrainDependsOnFragments(pat: Bytes, k: nat)
    requires NEWLINE !in pat && 0 < k < |pat|
    ensures Joined(CutOutput(pat, k)) == DrainOutput(pat)
    ensures SeenIn([DrainOutput(pat)], pat) == 2 && SeenIn(CutOutput(pat, k), pat) == 0
  {
    hide *;
    CutJoins(pat, k);
    var cut := CutOutput(pat, k);
    CutOutputIs(pat, k);
    ThreePieces(cut[0], cut[1], cut[2], pat);
    OnePiece(DrainOutput(pat), pat);
    PromptedApart([], pat, []);
    PromptedBare(pat);
    PieceTooShort(cut[0], pat);
    PieceHoldsNone(cut[1], pat, |pat| - k);
    PieceHoldsNone(cut[2], pat, |pat| - k);
  }
}
