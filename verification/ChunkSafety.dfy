/** What every chunking keeps: all the text in order, bounded sizes, and true overlaps. */
module ChunkSafety {
  import opened Text
  import opened Splitting
  import opened Chunker

  /** The units the chunker packs: paragraphs, and the sentences of those too long for a chunk. */
  function Units(l: Limits, paras: seq<string>): seq<string> {
    if paras == [] then [] else
      var para := paras[|paras| - 1];
      Units(l, paras[..|paras| - 1]) + if |para| > l.maxChars then Pieces(Sentences, para) else [para]
  }

  function PiecesOf(groups: seq<Group>): seq<string> {
    if groups == [] then [] else PiecesOf(groups[..|groups| - 1]) + groups[|groups| - 1].pieces
  }

  function Packed(b: Packing): seq<string> {
    PiecesOf(b.groups) + b.current
  }

  lemma FlushKeeps(b: Packing, sep: string)
    ensures Packed(Flush(b, sep)) == Packed(b)
  {
    if b.current != [] {
      assert Flush(b, sep).groups[..|b.groups|] == b.groups;
    }
  }

  lemma AddKeeps(l: Limits, b: Packing, piece: string, sep: string)
    ensures Packed(Add(l, b, piece, sep)) == Packed(b) + [piece]
  {
    hide Flush, PiecesOf, Total;
    FlushKeeps(b, sep);
    var f := if Total(b.current) + |piece| > l.maxChars then Flush(b, sep) else b;
    assert Packed(Add(l, b, piece, sep)) == PiecesOf(f.groups) + (f.current + [piece]) == Packed(f) + [piece];
  }

  lemma {:induction false} AddAllKeeps(l: Limits, b: Packing, pieces: seq<string>, sep: string)
    ensures Packed(AddAll(l, b, pieces, sep)) == Packed(b) + pieces
  {
    hide Add, Packed;
    if pieces != [] {
      var n := |pieces| - 1;
      AddAllKeeps(l, b, pieces[..n], sep);
      AddKeeps(l, AddAll(l, b, pieces[..n], sep), pieces[n], sep);
    }
  }

  lemma {:induction false} PackAllKeeps(l: Limits, paras: seq<string>)
    ensures Packed(PackAll(l, paras)) == Units(l, paras)
  {
    hide Add, AddAll, Flush, Pieces;
    if paras != [] {
      var n := |paras| - 1;
      var before := PackAll(l, paras[..n]);
      PackAllKeeps(l, paras[..n]);
      hide Packed;
      AddKeeps(l, before, paras[n], "\n\n");
      FlushKeeps(before, "\n\n");
      AddAllKeeps(l, Flush(before, "\n\n"), Pieces(Sentences, paras[n]), "\n");
    }
  }

  /** The groups hold exactly the units, in order. */
  lemma GroupsKeepUnits(l: Limits, text: string)
    ensures PiecesOf(Groups(l, text)) == Units(l, Pieces(Paragraphs, text))
  {
    hide PackAll, Units, Pieces;
    var packed := PackAll(l, Pieces(Paragraphs, text));
    PackAllKeeps(l, Pieces(Paragraphs, text));
    FlushKeeps(packed, "\n\n");
  }

  predicate Good(p: string) {
    p != [] && Stripped(p)
  }

  lemma {:induction false} UnitsGood(l: Limits, paras: seq<string>)
    requires forall p :: p in paras ==> Good(p)
    ensures forall p :: p in Units(l, paras) ==> Good(p)
  {
    hide Pieces;
    if paras != [] {
      var n := |paras| - 1;
      assert paras == paras[..n] + [paras[n]];
      UnitsGood(l, paras[..n]);
      PiecesShape(Sentences, paras[n]);
    }
  }

  lemma {:induction false} UnitsKeepText(l: Limits, paras: seq<string>)
    ensures Squeeze(Flatten(Units(l, paras))) == Squeeze(Flatten(paras))
  {
    if paras != [] {
      hide Pieces, Squeeze;
      var n := |paras| - 1;
      var last := if |paras[n]| > l.maxChars then Pieces(Sentences, paras[n]) else [paras[n]];
      UnitsKeepText(l, paras[..n]);
      PiecesKeep(Sentences, paras[n]);
      FlattenFew(paras[n]);
      FlattenConcat(Units(l, paras[..n]), last);
      SqueezeConcat(Flatten(Units(l, paras[..n])), Flatten(last));
      SqueezeConcat(Flatten(paras[..n]), paras[n]);
    }
  }

  // ----- Sizes -----

  predicate Sized(l: Limits, pieces: seq<string>) {
    pieces != [] && (|pieces| == 1 || Total(pieces) <= l.maxChars)
  }

  ghost predicate SizedPacking(l: Limits, b: Packing) {
    (forall g :: g in b.groups ==> Sized(l, g.pieces) && Blank(g.sep) && 1 <= |g.sep| <= 2)
    && (b.current != [] ==> Sized(l, b.current))
  }

  ghost predicate SmallBlank(sep: string) {
    Blank(sep) && 1 <= |sep| <= 2
  }

  lemma AddSized(l: Limits, b: Packing, piece: string, sep: string)
    requires SizedPacking(l, b) && SmallBlank(sep)
    ensures SizedPacking(l, Add(l, b, piece, sep))
  {
    TotalLast(b.current, piece);
  }

  lemma {:induction false} AddAllSized(l: Limits, b: Packing, pieces: seq<string>, sep: string)
    requires SizedPacking(l, b) && SmallBlank(sep)
    ensures SizedPacking(l, AddAll(l, b, pieces, sep))
  {
    if pieces != [] {
      hide Add, SizedPacking, SmallBlank;
      var n := |pieces| - 1;
      AddAllSized(l, b, pieces[..n], sep);
      AddSized(l, AddAll(l, b, pieces[..n], sep), pieces[n], sep);
    }
  }

  lemma FlushSized(l: Limits, b: Packing, sep: string)
    requires SizedPacking(l, b) && SmallBlank(sep)
    ensures SizedPacking(l, Flush(b, sep)) && Flush(b, sep).current == []
  {
  }

  lemma {:induction false} PackAllSized(l: Limits, paras: seq<string>)
    ensures SizedPacking(l, PackAll(l, paras))
  {
    if paras != [] {
      hide Add, AddAll, Flush, SizedPacking, Pieces;
      assert SmallBlank("\n\n") && SmallBlank("\n");
      hide SmallBlank;
      var n := |paras| - 1;
      var before := PackAll(l, paras[..n]);
      PackAllSized(l, paras[..n]);
      AddSized(l, before, paras[n], "\n\n");
      FlushSized(l, before, "\n\n");
      AddAllSized(l, Flush(before, "\n\n"), Pieces(Sentences, paras[n]), "\n");
    }
  }

  lemma GroupsSized(l: Limits, text: string)
    ensures forall g :: g in Groups(l, text) ==> Sized(l, g.pieces) && SmallBlank(g.sep)
  {
    hide PackAll, Pieces, Sized;
    PackAllSized(l, Pieces(Paragraphs, text));
    FlushSized(l, PackAll(l, Pieces(Paragraphs, text)), "\n\n");
  }

  lemma {:induction false} GroupPieces(groups: seq<Group>, g: Group)
    requires g in groups
    ensures forall p :: p in g.pieces ==> p in PiecesOf(groups)
  {
    var n := |groups| - 1;
    if g != groups[n] { GroupPieces(groups[..n], g); }
  }

  /** Every group is non-empty, made of good pieces, and within the size limit unless it is a single piece. */
  lemma GroupsShape(l: Limits, text: string)
    ensures forall g :: g in Groups(l, text) ==>
      Sized(l, g.pieces) && SmallBlank(g.sep) && forall p :: p in g.pieces ==> Good(p)
  {
    hide Groups, Pieces, Sized, SmallBlank, Good, Units, PiecesOf;
    GroupsSized(l, text);
    GroupsKeepUnits(l, text);
    assert forall p :: p in Pieces(Paragraphs, text) ==> Good(p) by {
      PiecesShape(Paragraphs, text);
      GoodIs();
    }
    UnitsGood(l, Pieces(Paragraphs, text));
    forall g | g in Groups(l, text) ensures forall p :: p in g.pieces ==> Good(p) {
      GroupPieces(Groups(l, text), g);
    }
  }

  lemma GoodIs()
    ensures forall p :: Good(p) <==> p != [] && Stripped(p)
  {
  }

  // ----- No chunk is closed early -----

  /** The first piece of each group did not fit into the group before it. */
  ghost predicate Tight(l: Limits, groups: seq<Group>) {
    forall k :: 0 < k < |groups| ==> groups[k].pieces != [] && Total(groups[k - 1].pieces) + |groups[k].pieces[0]| > l.maxChars
  }

  ghost predicate TightPacking(l: Limits, b: Packing) {
    Tight(l, b.groups) && (b.groups != [] ==>
      b.current != [] && Total(b.groups[|b.groups| - 1].pieces) + |b.current[0]| > l.maxChars)
  }

  lemma AddTight(l: Limits, b: Packing, piece: string, sep: string)
    requires TightPacking(l, b)
    ensures TightPacking(l, Add(l, b, piece, sep))
  {
    hide Total;
    var f := Flush(b, sep);
    assert b.current != [] ==> forall k :: 0 <= k < |b.groups| ==> f.groups[k] == b.groups[k];
  }

  lemma {:induction false} PackAllTight(l: Limits, paras: seq<string>)
    requires forall p :: p in paras ==> |p| <= l.maxChars
    ensures TightPacking(l, PackAll(l, paras))
  {
    if paras != [] {
      hide Total, Pieces, AddAll, Add, TightPacking;
      var n := |paras| - 1;
      assert forall p :: p in paras[..n] ==> p in paras;
      PackAllTight(l, paras[..n]);
      AddTight(l, PackAll(l, paras[..n]), paras[n], "\n\n");
    }
  }

  /** When every paragraph fits a chunk, a chunk ends only where the next paragraph would have made it too long. */
  lemma GroupsTight(l: Limits, text: string)
    requires forall p :: p in Pieces(Paragraphs, text) ==> |p| <= l.maxChars
    ensures Tight(l, Groups(l, text))
  {
    hide PackAll, Total, Pieces;
    PackAllTight(l, Pieces(Paragraphs, text));
  }

  // ----- What joins the pieces of a chunk -----

  /** For each unit, what joins the chunk it would not fit into: only a sentence that is not the first breaks by a single line. */
  function Breaks(l: Limits, paras: seq<string>): seq<string> {
    if paras == [] then [] else
      var para := paras[|paras| - 1];
      Breaks(l, paras[..|paras| - 1]) + if |para| > l.maxChars then LineBreaks(|Pieces(Sentences, para)|) else ["\n\n"]
  }

  function LineBreaks(n: nat): (r: seq<string>)
    ensures |r| == n
  {
    seq(n, j requires 0 <= j < n => if j == 0 then "\n\n" else "\n")
  }

  /** Each group is joined by the break of the unit behind it, and the last one by a blank line. */
  ghost predicate JoinedBy(groups: seq<Group>, breaks: seq<string>) {
    forall k :: 0 <= k < |groups| ==> JoinedAt(groups, breaks, k)
  }

  predicate JoinedAt(groups: seq<Group>, breaks: seq<string>, k: nat)
    requires k < |groups|
  {
    groups[k].sep == BreakAt(breaks, |PiecesOf(groups[..k + 1])|)
  }

  function BreakAt(breaks: seq<string>, next: nat): string {
    if next < |breaks| then breaks[next] else "\n\n"
  }

  ghost predicate JoinedPacking(b: Packing, breaks: seq<string>) {
    JoinedBy(b.groups, breaks) && |breaks| == |Packed(b)|
  }

  lemma {:induction false} PiecesGrow(groups: seq<Group>, k: nat)
    requires k <= |groups|
    ensures |PiecesOf(groups[..k])| <= |PiecesOf(groups)|
  {
    if k < |groups| {
      PiecesGrow(groups[..|groups| - 1], k);
      assert groups[..|groups| - 1][..k] == groups[..k];
    } else {
      assert groups[..k] == groups;
    }
  }

  /** A break that is a blank line, or that comes behind pieces not yet closed, changes nothing for the groups closed before. */
  lemma OneMoreBreak(b: Packing, breaks: seq<string>, more: string)
    requires JoinedPacking(b, breaks) && (b.current != [] || more == "\n\n")
    ensures JoinedBy(b.groups, breaks + [more])
  {
    forall k | 0 <= k < |b.groups| ensures JoinedAt(b.groups, breaks + [more], k) {
      PiecesGrow(b.groups, k + 1);
      assert JoinedAt(b.groups, breaks, k);
    }
  }

  lemma ClosedBy(groups: seq<Group>, g: Group, breaks: seq<string>)
    requires JoinedBy(groups, breaks) && g.sep == BreakAt(breaks, |PiecesOf(groups)| + |g.pieces|)
    ensures JoinedBy(groups + [g], breaks)
  {
    hide PiecesOf, BreakAt;
    var all := groups + [g];
    PiecesWith(groups, g);
    forall k | 0 <= k < |all| ensures JoinedAt(all, breaks, k) {
      if k < |groups| {
        assert all[..k + 1] == groups[..k + 1] && JoinedAt(groups, breaks, k);
      } else {
        assert all[..k + 1] == all;
      }
    }
  }

  lemma PiecesWith(groups: seq<Group>, g: Group)
    ensures PiecesOf(groups + [g]) == PiecesOf(groups) + g.pieces
  {
    assert (groups + [g])[..|groups|] == groups;
  }

  lemma AddJoined(l: Limits, b: Packing, piece: string, sep: string, breaks: seq<string>)
    requires JoinedPacking(b, breaks)
    ensures JoinedPacking(Add(l, b, piece, sep), breaks + [if b.current == [] then "\n\n" else sep])
    ensures Add(l, b, piece, sep).current != []
  {
    hide JoinedBy, PiecesOf, Total;
    AddKeeps(l, b, piece, sep);
    var more := if b.current == [] then "\n\n" else sep;
    OneMoreBreak(b, breaks, more);
    if b.current != [] {
      ClosedBy(b.groups, Group(b.current, sep), breaks + [more]);
    }
  }

  lemma {:induction false} AddAllJoined(l: Limits, b: Packing, pieces: seq<string>, breaks: seq<string>)
    requires JoinedPacking(b, breaks) && b.current == []
    ensures JoinedPacking(AddAll(l, b, pieces, "\n"), breaks + LineBreaks(|pieces|))
    ensures pieces != [] ==> AddAll(l, b, pieces, "\n").current != []
  {
    hide JoinedPacking, Add;
    if pieces == [] {
      assert breaks + LineBreaks(0) == breaks;
    } else {
      var n := |pieces| - 1;
      AddAllJoined(l, b, pieces[..n], breaks);
      AddJoined(l, AddAll(l, b, pieces[..n], "\n"), pieces[n], "\n", breaks + LineBreaks(n));
      assert pieces[..n] == [] <==> n == 0;
      assert breaks + LineBreaks(n + 1) == breaks + LineBreaks(n) + [if n == 0 then "\n\n" else "\n"];
    }
  }

  lemma FlushJoined(b: Packing, breaks: seq<string>)
    requires JoinedPacking(b, breaks)
    ensures JoinedPacking(Flush(b, "\n\n"), breaks) && Flush(b, "\n\n").current == []
  {
    hide JoinedBy, PiecesOf;
    FlushKeeps(b, "\n\n");
    if b.current != [] { ClosedBy(b.groups, Group(b.current, "\n\n"), breaks); }
  }

  lemma {:induction false} PackAllJoined(l: Limits, paras: seq<string>)
    ensures JoinedPacking(PackAll(l, paras), Breaks(l, paras))
  {
    if paras != [] {
      hide Add, AddAll, Flush, JoinedPacking, Pieces;
      var n := |paras| - 1;
      var before := PackAll(l, paras[..n]);
      PackAllJoined(l, paras[..n]);
      FlushJoined(before, Breaks(l, paras[..n]));
      AddAllJoined(l, Flush(before, "\n\n"), Pieces(Sentences, paras[n]), Breaks(l, paras[..n]));
      AddJoined(l, before, paras[n], "\n\n", Breaks(l, paras[..n]));
    }
  }

  /**
   * The pieces of a chunk are joined by single lines if the sentence behind them, not the first of its paragraph, made it
   * too long, and by blank lines in every other case.
   */
  lemma GroupsJoined(l: Limits, text: string)
    ensures JoinedBy(Groups(l, text), Breaks(l, Pieces(Paragraphs, text)))
  {
    hide PackAll, Pieces, JoinedBy;
    PackAllJoined(l, Pieces(Paragraphs, text));
    FlushJoined(PackAll(l, Pieces(Paragraphs, text)), Breaks(l, Pieces(Paragraphs, text)));
  }

  // ----- Bodies and overlaps -----

  lemma GoodConcat(a: string, sep: string, b: string)
    requires Good(a) && Good(b)
    ensures Good(a + sep + b)
  {
  }

  lemma {:induction false} JoinShape(pieces: seq<string>, sep: string)
    requires pieces != [] && SmallBlank(sep) && forall p :: p in pieces ==> Good(p)
    ensures Good(Join(pieces, sep))
    ensures |Join(pieces, sep)| == Total(pieces) + (|pieces| - 1) * |sep|
    ensures |pieces| <= Total(pieces)
    ensures Squeeze(Join(pieces, sep)) == Squeeze(Flatten(pieces))
  {
    hide Squeeze;
    var n := |pieces| - 1;
    if n == 0 {
      assert pieces == [pieces[0]];
      FlattenFew(pieces[0]);
    } else {
      var init := pieces[..n];
      assert forall p :: p in init ==> p in pieces;
      JoinShape(init, sep);
      GoodConcat(Join(init, sep), sep, pieces[n]);
      SqueezeConcat(Join(init, sep) + sep, pieces[n]);
      SqueezeConcat(Join(init, sep), sep);
      SqueezeBlank(sep);
      SqueezeConcat(Flatten(init), pieces[n]);
      assert (n - 1) * |sep| + |sep| == n * |sep|;
    }
  }

  /** k is where the last characters of the body begin, as many as the overlap may have, whitespace skipped. */
  ghost predicate OverlapFrom(l: Limits, body: string, k: nat)
    requires k < |body|
  {
    var from := if l.overlapChars <= |body| then |body| - l.overlapChars else 0;
    from <= k && Blank(body[from..k]) && !IsSpace(body[k])
  }

  /** The overlap is empty only when overlaps are off; otherwise it is the end of the body it comes from, and a blank line. */
  lemma TailShape(l: Limits, body: string)
    requires Good(body)
    ensures l.overlapChars == 0 ==> Tail(l, body) == ""
    ensures l.overlapChars > 0 ==> exists k: nat :: k < |body| && OverlapFrom(l, body, k) && Good(body[k..]) && Tail(l, body) == body[k..] + "\n\n"
  {
    hide Strip, IsSpace;
    if l.overlapChars > 0 {
      var from := if l.overlapChars <= |body| then |body| - l.overlapChars else 0;
      var cut := body[from..];
      assert cut[|cut| - 1] == body[|body| - 1];
      StripSuffix(cut);
      var k := |body| - |Strip(cut)|;
      assert Strip(cut) == body[k..];
      assert body[from..k] == cut[..|cut| - |Strip(cut)|];
      assert OverlapFrom(l, body, k);
    }
  }

  /** Stripping a text that ends in no whitespace only shortens it at the front. */
  lemma StripSuffix(cut: string)
    requires cut != [] && !IsSpace(cut[|cut| - 1])
    ensures |Strip(cut)| <= |cut| && Good(Strip(cut)) && Strip(cut) == cut[|cut| - |Strip(cut)|..]
    ensures Blank(cut[..|cut| - |Strip(cut)|])
  {
    hide Strip, IsSpace, Stripped;
    LeftOnly(cut);
    StripStripped(cut);
    var left := LStripBy(cut, IsSpace);
    assert |left| > 0;
    assert forall i :: 0 <= i < |cut| - |left| ==> cut[..|cut| - |left|][i] == cut[i];
  }

  lemma LeftOnly(cut: string)
    requires cut != [] && !IsSpace(cut[|cut| - 1])
    ensures Strip(cut) == LStripBy(cut, IsSpace)
  {
    hide IsSpace;
    var left := LStripBy(cut, IsSpace);
    assert left != [] ==> left[|left| - 1] == cut[|cut| - 1];
  }

  lemma {:induction false} RenderAt(l: Limits, groups: seq<Group>, k: nat)
    requires k < |groups|
    ensures Render(l, groups)[k] == MakeChunk(NextOverlap(l, groups[..k]) + Body(groups[k]))
  {
    hide MakeChunk, NextOverlap, Body;
    var n := |groups| - 1;
    if k < n {
      RenderAt(l, groups[..n], k);
      assert groups[..n][..k] == groups[..k];
    }
  }

  /** The final strip changes nothing: a chunk is its overlap followed by its body. */
  lemma ChunkText(l: Limits, text: string, k: nat)
    requires k < |Groups(l, text)|
    ensures var groups, c := Groups(l, text), Render(l, Groups(l, text))[k];
      c.text == NextOverlap(l, groups[..k]) + Body(groups[k]) && c.charCount == |c.text|
      && c.tokenCount == (if |c.text| < 8 then 1 else |c.text| / 4)
      && Good(Body(groups[k])) && (k > 0 ==> Good(Body(groups[k - 1])))
  {
    hide Groups, Render, Tail, Squeeze, Strip;
    var groups := Groups(l, text);
    GroupsShape(l, text);
    assert groups[k] in groups;
    JoinShape(groups[k].pieces, groups[k].sep);
    RenderAt(l, groups, k);
    if k > 0 {
      assert groups[k - 1] in groups && groups[..k][k - 1] == groups[k - 1];
      JoinShape(groups[k - 1].pieces, groups[k - 1].sep);
      TailShape(l, Body(groups[k - 1]));
    }
    StripStripped(NextOverlap(l, groups[..k]) + Body(groups[k]));
  }

  /** text is body behind the end of the last body and a blank line, or just body when overlaps are off. */
  ghost predicate StartsWithEnd(l: Limits, last: string, body: string, text: string) {
    if l.overlapChars == 0 then text == body else
      exists k: nat :: k < |last| && OverlapFrom(l, last, k) && text == last[k..] + "\n\n" + body
  }

  /** A chunk after the first starts with the end of the previous body, exactly as long as configured before it is stripped. */
  lemma ChunkOverlap(l: Limits, text: string, k: nat)
    requires 0 < k < |Groups(l, text)|
    ensures var groups, c, last := Groups(l, text), Render(l, Groups(l, text))[k], Body(Groups(l, text)[k - 1]);
      StartsWithEnd(l, last, Body(groups[k]), c.text)
  {
    hide Groups, Render, Body, Tail, Good, OverlapFrom;
    var groups := Groups(l, text);
    ChunkText(l, text, k);
    assert groups[..k][k - 1] == groups[k - 1];
    TailShape(l, Body(groups[k - 1]));
  }

  /** A chunk is at most one overlap longer than three times the limit, or than the single piece it holds. */
  lemma ChunkBound(l: Limits, text: string, k: nat)
    requires k < |Groups(l, text)|
    ensures var g, size := Groups(l, text)[k], |Render(l, Groups(l, text))[k].text|;
      size <= (if l.overlapChars == 0 then 0 else l.overlapChars + 2)
              + (if |g.pieces| == 1 then |g.pieces[0]| else 3 * l.maxChars - 2)
  {
    hide Groups, Render, Tail, Squeeze, Good;
    var groups := Groups(l, text);
    ChunkText(l, text, k);
    GroupsShape(l, text);
    assert groups[k] in groups;
    JoinShape(groups[k].pieces, groups[k].sep);
    if k > 0 {
      assert groups[..k][k - 1] == groups[k - 1];
      TailShape(l, Body(groups[k - 1]));
    }
  }

  // ----- Conservation -----

  /** What the chunks hold once the overlap each one starts with is dropped. */
  ghost function Remainders(l: Limits, groups: seq<Group>): seq<string> {
    seq(|groups|, k requires 0 <= k < |groups| =>
      var t, skip := Render(l, groups)[k].text, |NextOverlap(l, groups[..k])|;
      if skip <= |t| then t[skip..] else "")
  }

  ghost function Bodies(groups: seq<Group>): (r: seq<string>)
    ensures |r| == |groups|
  {
    if groups == [] then [] else Bodies(groups[..|groups| - 1]) + [Body(groups[|groups| - 1])]
  }

  lemma {:induction false} BodiesAt(groups: seq<Group>, k: nat)
    requires k < |groups|
    ensures Bodies(groups)[k] == Body(groups[k])
  {
    hide Body;
    if k < |groups| - 1 { BodiesAt(groups[..|groups| - 1], k); }
  }

  lemma {:induction false} BodiesKeep(groups: seq<Group>)
    requires forall g :: g in groups ==> g.pieces != [] && SmallBlank(g.sep) && forall p :: p in g.pieces ==> Good(p)
    ensures Squeeze(Flatten(Bodies(groups))) == Squeeze(Flatten(PiecesOf(groups)))
  {
    if groups != [] {
      hide Squeeze, Join, Good, SmallBlank;
      var n := |groups| - 1;
      var g := groups[n];
      assert g in groups && forall x :: x in groups[..n] ==> x in groups;
      BodiesKeep(groups[..n]);
      JoinShape(g.pieces, g.sep);
      FlattenConcat(PiecesOf(groups[..n]), g.pieces);
      SqueezeConcat(Flatten(PiecesOf(groups[..n])), Flatten(g.pieces));
      SqueezeConcat(Flatten(Bodies(groups[..n])), Body(g));
    }
  }

  /** Dropping the overlaps and all whitespace, the chunks are the text, in order: nothing is lost and nothing is repeated. */
  lemma ChunksConserve(l: Limits, text: string)
    ensures Squeeze(Flatten(Remainders(l, Groups(l, text)))) == Squeeze(text)
  {
    hide Groups, Render, Squeeze, Flatten, NextOverlap, Body, PiecesOf, Units, Good, SmallBlank, Pieces, Bodies;
    var groups := Groups(l, text);
    forall k | 0 <= k < |groups| ensures Remainders(l, groups)[k] == Bodies(groups)[k] {
      ChunkText(l, text, k);
      BodiesAt(groups, k);
    }
    assert Remainders(l, groups) == Bodies(groups);
    GroupsShape(l, text);
    BodiesKeep(groups);
    GroupsKeepUnits(l, text);
    UnitsKeepText(l, Pieces(Paragraphs, text));
    PiecesKeep(Paragraphs, text);
  }

  /** There is a chunk exactly when the text has something other than whitespace. */
  lemma ChunksExist(l: Limits, text: string)
    ensures Render(l, Groups(l, text)) == [] <==> Blank(text)
  {
    hide Groups, Blank, SmallBlank;
    var groups := Groups(l, text);
    ChunksConserve(l, text);
    SqueezeBlank(text);
    if groups != [] {
      ChunkText(l, text, 0);
      assert Remainders(l, groups)[0] == Body(groups[0]);
      GoodNotBlank(Body(groups[0]));
      FlattenNonBlank(Remainders(l, groups), 0);
    } else {
      assert Remainders(l, groups) == [];
    }
  }

  lemma GoodNotBlank(s: string)
    requires Good(s)
    ensures Squeeze(s) != []
  {
    SqueezeBlank(s);
  }

  lemma {:induction false} FlattenNonBlank(ss: seq<string>, k: nat)
    requires k < |ss| && Squeeze(ss[k]) != []
    ensures Squeeze(Flatten(ss)) != []
  {
    hide Squeeze;
    var n := |ss| - 1;
    SqueezeConcat(Flatten(ss[..n]), ss[n]);
    if k < n { FlattenNonBlank(ss[..n], k); }
  }
}
