/** Cutting a text into paragraphs and sentences. */
module Splitting {
  import opened Text

  datatype Mode = Paragraphs | Sentences

  /** The end of the whitespace run that starts at i. */
  function RunEnd(text: string, i: nat): (e: nat)
    requires i <= |text|
    ensures i <= e <= |text| && (forall k :: i <= k < e ==> IsSpace(text[k])) && (e < |text| ==> !IsSpace(text[e]))
    decreases |text| - i
  {
    if i < |text| && IsSpace(text[i]) then RunEnd(text, i + 1) else i
  }

  /** The last newline in text[i..j], or -1. */
  function LastNewline(text: string, i: nat, j: nat): (k: int)
    requires i <= j <= |text|
    ensures k == -1 || (i <= k < j && text[k] == '\n')
    ensures forall x :: i <= x < j && text[x] == '\n' ==> x <= k
  {
    if i == j then -1 else if text[j - 1] == '\n' then j - 1 else LastNewline(text, i, j - 1)
  }

  /** The end of a separator that starts at i, or i if none does. */
  function Break(mode: Mode, text: string, i: nat): (e: nat)
    requires i < |text|
    ensures i <= e <= |text| && forall k :: i <= k < e ==> IsSpace(text[k])
  {
    match mode
    case Paragraphs =>
      if text[i] != '\n' then i else
        var k := LastNewline(text, i + 1, RunEnd(text, i + 1));
        if k < 0 then i else k + 1
    case Sentences =>
      if i > 0 && text[i - 1] in ".!?" && IsSpace(text[i]) then RunEnd(text, i) else i
  }

  /** re.split from position i, in a piece that began at start. */
  function Split(mode: Mode, text: string, start: nat, i: nat): (r: seq<string>)
    requires start <= i <= |text|
    ensures r != []
    decreases |text| - i
  {
    if i == |text| then [text[start..]] else
      var e := Break(mode, text, i);
      if e > i then [text[start..i]] + Split(mode, text, e, e) else Split(mode, text, start, i + 1)
  }

  function CleanUp(pieces: seq<string>): seq<string> {
    if pieces == [] then [] else
      (if Strip(pieces[0]) == [] then [] else [Strip(pieces[0])]) + CleanUp(pieces[1..])
  }

  /** The stripped, non-empty pieces of a text. */
  function Pieces(mode: Mode, text: string): seq<string> {
    CleanUp(Split(mode, text, 0, 0))
  }

  // ----- What a separator is -----

  /** Two newlines with nothing but whitespace between them. */
  ghost predicate BlankLine(s: string, a: int, b: int) {
    0 <= a < b < |s| && s[a] == '\n' && s[b] == '\n' && forall k :: a < k < b ==> IsSpace(s[k])
  }

  ghost predicate SentenceEnd(s: string, a: int) {
    0 <= a && a + 1 < |s| && s[a] in ".!?" && IsSpace(s[a + 1])
  }

  /** The piece holds no place where the mode would cut it. */
  ghost predicate Whole(mode: Mode, s: string) {
    match mode
    case Paragraphs => forall a, b :: !BlankLine(s, a, b)
    case Sentences => forall a :: !SentenceEnd(s, a)
  }

  lemma BreakHere(mode: Mode, text: string, a: nat, b: nat)
    requires mode.Paragraphs? && BlankLine(text, a, b)
    ensures Break(mode, text, a) > a
  {
    assert RunEnd(text, a + 1) > b;
  }

  lemma SentenceBreakHere(mode: Mode, text: string, a: nat)
    requires mode.Sentences? && SentenceEnd(text, a)
    ensures Break(mode, text, a + 1) > a + 1
  {
  }

  lemma SliceLine(text: string, start: nat, i: nat, a: int, b: int)
    requires start <= i <= |text| && BlankLine(text[start..i], a, b)
    ensures BlankLine(text, start + a, start + b)
  {
    assert forall k :: start + a < k < start + b ==> text[k] == text[start..i][k - start];
  }

  lemma SliceWhole(mode: Mode, text: string, start: nat, i: nat)
    requires start <= i <= |text|
    requires forall k :: start <= k < i ==> Break(mode, text, k) == k
    ensures Whole(mode, text[start..i])
  {
    var s := text[start..i];
    if mode.Paragraphs? {
      forall a, b ensures !BlankLine(s, a, b) {
        if BlankLine(s, a, b) {
          SliceLine(text, start, i, a, b);
          BreakHere(mode, text, start + a, start + b);
        }
      }
    } else {
      forall a ensures !SentenceEnd(s, a) {
        if SentenceEnd(s, a) {
          SentenceBreakHere(mode, text, start + a);
        }
      }
    }
  }

  lemma {:induction false} SplitWhole(mode: Mode, text: string, start: nat, i: nat)
    requires start <= i <= |text|
    requires forall k :: start <= k < i ==> Break(mode, text, k) == k
    ensures forall p :: p in Split(mode, text, start, i) ==> Whole(mode, p)
    decreases |text| - i
  {
    hide Break, Whole;
    SliceWhole(mode, text, start, i);
    if i == |text| {
      assert text[start..i] == text[start..];
    } else {
      var e := Break(mode, text, i);
      if e > i {
        SplitWhole(mode, text, e, e);
        assert Split(mode, text, start, i) == [text[start..i]] + Split(mode, text, e, e);
      } else {
        SplitWhole(mode, text, start, i + 1);
      }
    }
  }

  lemma WholePart(mode: Mode, s: string, i: nat, j: nat)
    requires i <= j <= |s| && Whole(mode, s)
    ensures Whole(mode, s[i..j])
  {
    forall a, b | BlankLine(s[i..j], a, b) ensures BlankLine(s, i + a, i + b) {
      assert forall k :: i + a < k < i + b ==> s[k] == s[i..j][k - i];
    }
    forall a | SentenceEnd(s[i..j], a) ensures SentenceEnd(s, i + a) {
    }
  }

  lemma StripIsPart(s: string)
    ensures exists i, j :: 0 <= i <= j <= |s| && Strip(s) == s[i..j]
  {
    hide IsSpace;
    var l := LStripBy(s, IsSpace);
    var from := |s| - |l|;
    assert Strip(s) == l[..|Strip(s)|] == s[from..from + |Strip(s)|];
  }

  lemma StripWhole(mode: Mode, s: string)
    requires Whole(mode, s)
    ensures Whole(mode, Strip(s))
  {
    hide Whole, Strip;
    StripIsPart(s);
    var i, j :| 0 <= i <= j <= |s| && Strip(s) == s[i..j];
    WholePart(mode, s, i, j);
  }

  lemma {:induction false} CleanUpShape(mode: Mode, pieces: seq<string>)
    requires forall p :: p in pieces ==> Whole(mode, p)
    ensures forall p :: p in CleanUp(pieces) ==> p != [] && Stripped(p) && Whole(mode, p)
  {
    hide Strip, Whole, Stripped;
    if pieces != [] {
      CleanUpShape(mode, pieces[1..]);
      StripStripped(pieces[0]);
      StripWhole(mode, pieces[0]);
    }
  }

  /** Every piece is non-empty, stripped, and holds no further place to cut. */
  lemma PiecesShape(mode: Mode, text: string)
    ensures forall p :: p in Pieces(mode, text) ==> p != [] && Stripped(p) && Whole(mode, p)
  {
    SplitWhole(mode, text, 0, 0);
    CleanUpShape(mode, Split(mode, text, 0, 0));
  }

  // ----- Nothing is lost, and every cut is at a separator -----

  ghost predicate Separator(mode: Mode, before: string, sep: string) {
    Blank(sep) && sep != []
    && match mode
       case Paragraphs => |sep| >= 2 && sep[0] == '\n' && sep[|sep| - 1] == '\n'
       case Sentences => before != [] && before[|before| - 1] in ".!?"
  }

  /** text is the pieces in order, each two of them with a separator between. */
  ghost predicate CutUp(mode: Mode, before: string, text: string, pieces: seq<string>)
    decreases |pieces|
  {
    pieces != []
    && if |pieces| == 1 then text == pieces[0] else
         exists sep :: Separator(mode, before + pieces[0], sep) && pieces[0] + sep <= text
           && CutUp(mode, before + pieces[0] + sep, text[|pieces[0] + sep|..], pieces[1..])
  }

  lemma CutUpStep(mode: Mode, before: string, piece: string, sep: string, rest: string, pieces: seq<string>)
    requires Separator(mode, before + piece, sep) && CutUp(mode, before + piece + sep, rest, pieces)
    ensures CutUp(mode, before, piece + sep + rest, [piece] + pieces)
  {
    hide Separator;
    var text := piece + sep + rest;
    var all := [piece] + pieces;
    assert text[|piece + sep|..] == rest && all[0] == piece && all[1..] == pieces && piece + sep <= text;
    assert Separator(mode, before + all[0], sep) && CutUp(mode, before + all[0] + sep, text[|all[0] + sep|..], all[1..]);
  }

  lemma BreakSeparates(mode: Mode, text: string, i: nat)
    requires i < |text| && Break(mode, text, i) > i
    ensures Separator(mode, text[..i], text[i..Break(mode, text, i)])
  {
  }

  lemma {:induction false} SplitCutsUp(mode: Mode, text: string, start: nat, i: nat)
    requires start <= i <= |text|
    ensures CutUp(mode, text[..start], text[start..], Split(mode, text, start, i))
    decreases |text| - i
  {
    hide Break, CutUp;
    if i == |text| {
      WholeText(mode, text[..start], text[start..]);
    } else {
      var e := Break(mode, text, i);
      if e > i {
        SplitCutsUp(mode, text, e, e);
        BreakSeparates(mode, text, i);
        assert text[..start] + text[start..i] == text[..i] && text[..i] + text[i..e] == text[..e];
        assert text[start..i] + text[i..e] + text[e..] == text[start..];
        CutUpStep(mode, text[..start], text[start..i], text[i..e], text[e..], Split(mode, text, e, e));
      } else {
        SplitCutsUp(mode, text, start, i + 1);
      }
    }
  }

  lemma WholeText(mode: Mode, before: string, text: string)
    ensures CutUp(mode, before, text, [text])
  {
  }

  function Flatten(ss: seq<string>): string {
    if ss == [] then [] else Flatten(ss[..|ss| - 1]) + ss[|ss| - 1]
  }

  lemma {:induction false} FlattenConcat(a: seq<string>, b: seq<string>)
    ensures Flatten(a + b) == Flatten(a) + Flatten(b)
  {
    if b == [] {
      assert a + b == a;
    } else {
      assert (a + b)[..|a + b| - 1] == a + b[..|b| - 1];
      FlattenConcat(a, b[..|b| - 1]);
    }
  }

  lemma {:induction false} CleanUpKeeps(pieces: seq<string>)
    ensures Squeeze(Flatten(CleanUp(pieces))) == Squeeze(Flatten(pieces))
  {
    if pieces != [] {
      hide Strip, Squeeze, Flatten;
      var head := if Strip(pieces[0]) == [] then [] else [Strip(pieces[0])];
      CleanUpKeeps(pieces[1..]);
      SqueezeStrip(pieces[0]);
      FlattenConcat(head, CleanUp(pieces[1..]));
      FlattenConcat([pieces[0]], pieces[1..]);
      assert pieces == [pieces[0]] + pieces[1..];
      FlattenFew(pieces[0]);
      FlattenFew(Strip(pieces[0]));
      SqueezeConcat(Flatten(head), Flatten(CleanUp(pieces[1..])));
      SqueezeConcat(pieces[0], Flatten(pieces[1..]));
    }
  }

  lemma FlattenFew(s: string)
    ensures Flatten([s]) == s && Flatten([]) == []
  {
  }

  lemma {:induction false} CutUpKeeps(mode: Mode, before: string, text: string, pieces: seq<string>)
    requires CutUp(mode, before, text, pieces)
    ensures Squeeze(Flatten(pieces)) == Squeeze(text)
    decreases |pieces|
  {
    hide Squeeze, Flatten;
    FlattenFew(pieces[0]);
    if |pieces| == 1 {
      assert pieces == [pieces[0]];
    } else {
      var sep :| Separator(mode, before + pieces[0], sep) && pieces[0] + sep <= text
           && CutUp(mode, before + pieces[0] + sep, text[|pieces[0] + sep|..], pieces[1..]);
      var rest := text[|pieces[0] + sep|..];
      CutUpKeeps(mode, before + pieces[0] + sep, rest, pieces[1..]);
      assert pieces == [pieces[0]] + pieces[1..] && text == pieces[0] + sep + rest;
      FlattenConcat([pieces[0]], pieces[1..]);
      SqueezeConcat(pieces[0], Flatten(pieces[1..]));
      SqueezeConcat(pieces[0] + sep, rest);
      SqueezeConcat(pieces[0], sep);
      SqueezeBlank(sep);
    }
  }

  /** Splitting loses only whitespace. */
  lemma PiecesKeep(mode: Mode, text: string)
    ensures Squeeze(Flatten(Pieces(mode, text))) == Squeeze(text)
  {
    hide *;
    SplitCutsUp(mode, text, 0, 0);
    assert text[0..] == text;
    CutUpKeeps(mode, text[..0], text, Split(mode, text, 0, 0));
    CleanUpKeeps(Split(mode, text, 0, 0));
    PiecesAre(mode, text);
  }

  lemma PiecesAre(mode: Mode, text: string)
    ensures Pieces(mode, text) == CleanUp(Split(mode, text, 0, 0))
  {
  }
}
