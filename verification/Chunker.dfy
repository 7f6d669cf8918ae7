/** The overlapping chunker: packing pieces of a text into chunks of bounded size. */
module Chunker {
  import opened Text
  import opened Splitting

  const CHARS_PER_TOKEN := 4

  datatype Limits = Limits(maxChars: nat, overlapChars: nat)

  datatype ChunkInfo = ChunkInfo(text: string, charCount: nat, tokenCount: nat)

  /** The content of one chunk before its overlap: the pieces, and what joins them. */
  datatype Group = Group(pieces: seq<string>, sep: string)

  function Join(pieces: seq<string>, sep: string): string {
    if pieces == [] then ""
    else if |pieces| == 1 then pieces[0]
    else Join(pieces[..|pieces| - 1], sep) + sep + pieces[|pieces| - 1]
  }

  function Body(g: Group): string {
    Join(g.pieces, g.sep)
  }

  function Total(pieces: seq<string>): nat {
    if pieces == [] then 0 else Total(pieces[..|pieces| - 1]) + |pieces[|pieces| - 1]|
  }

  /** The overlap a chunk hands to the next one. */
  function Tail(l: Limits, text: string): string {
    if text == "" || l.overlapChars == 0 then "" else
      var tail := Strip(text[if l.overlapChars <= |text| then |text| - l.overlapChars else 0..]);
      if tail == "" then "" else tail + "\n\n"
  }

  function MakeChunk(text: string): ChunkInfo {
    var t := Strip(text);
    ChunkInfo(t, |t|, if |t| / CHARS_PER_TOKEN >= 1 then |t| / CHARS_PER_TOKEN else 1)
  }

  /** The overlap prefix of the chunk that follows groups. */
  function NextOverlap(l: Limits, groups: seq<Group>): string {
    if groups == [] then "" else Tail(l, Body(groups[|groups| - 1]))
  }

  function Render(l: Limits, groups: seq<Group>): (r: seq<ChunkInfo>)
    ensures |r| == |groups|
  {
    if groups == [] then [] else
      var n := |groups| - 1;
      Render(l, groups[..n]) + [MakeChunk(NextOverlap(l, groups[..n]) + Body(groups[n]))]
  }

  // ----- Packing -----

  datatype Packing = Packing(groups: seq<Group>, current: seq<string>)

  function Flush(b: Packing, sep: string): Packing {
    if b.current == [] then b else Packing(b.groups + [Group(b.current, sep)], [])
  }

  /** The next piece joins the current group unless that group would get too long. */
  function Add(l: Limits, b: Packing, piece: string, sep: string): Packing {
    var f := if Total(b.current) + |piece| > l.maxChars then Flush(b, sep) else b;
    f.(current := f.current + [piece])
  }

  function AddAll(l: Limits, b: Packing, pieces: seq<string>, sep: string): Packing {
    if pieces == [] then b else
      Add(l, AddAll(l, b, pieces[..|pieces| - 1], sep), pieces[|pieces| - 1], sep)
  }

  /** A paragraph too long for a chunk starts a new group and is packed by sentences. */
  function AddParagraph(l: Limits, b: Packing, para: string): Packing {
    if |para| > l.maxChars then AddAll(l, Flush(b, "\n\n"), Pieces(Sentences, para), "\n") else Add(l, b, para, "\n\n")
  }

  function PackAll(l: Limits, paras: seq<string>): Packing {
    if paras == [] then Packing([], []) else
      AddParagraph(l, PackAll(l, paras[..|paras| - 1]), paras[|paras| - 1])
  }

  function Groups(l: Limits, text: string): seq<Group> {
    Flush(PackAll(l, Pieces(Paragraphs, text)), "\n\n").groups
  }

  lemma TotalLast(pieces: seq<string>, piece: string)
    ensures Total(pieces + [piece]) == Total(pieces) + |piece|
  {
    assert (pieces + [piece])[..|pieces|] == pieces;
  }

  /** The chunker's variables when it has packed b. */
  ghost predicate Holds(l: Limits, b: Packing, chunks: seq<ChunkInfo>, current: seq<string>, currentLen: nat, overlapTail: string) {
    && chunks == Render(l, b.groups) && overlapTail == NextOverlap(l, b.groups)
    && current == b.current && currentLen == Total(current)
  }

  lemma HoldsFlush(l: Limits, b: Packing, chunks: seq<ChunkInfo>, current: seq<string>, currentLen: nat, overlapTail: string, sep: string)
    requires Holds(l, b, chunks, current, currentLen, overlapTail)
    ensures current == [] ==> Flush(b, sep) == b
    ensures current != [] ==>
      Holds(l, Flush(b, sep), chunks + [MakeChunk(overlapTail + Join(current, sep))], [], 0, Tail(l, Join(current, sep)))
  {
    hide Join, Tail, MakeChunk;
    assert Flush(b, sep).groups[..|b.groups|] == b.groups || current == [];
  }

  lemma HoldsAppend(l: Limits, b: Packing, chunks: seq<ChunkInfo>, current: seq<string>, currentLen: nat, overlapTail: string, piece: string)
    requires Holds(l, b, chunks, current, currentLen, overlapTail)
    ensures Holds(l, b.(current := b.current + [piece]), chunks, current + [piece], currentLen + |piece|, overlapTail)
  {
    TotalLast(current, piece);
  }

  lemma AddIs(l: Limits, b: Packing, piece: string, sep: string)
    ensures var f := if Total(b.current) + |piece| > l.maxChars then Flush(b, sep) else b;
      Add(l, b, piece, sep) == f.(current := f.current + [piece])
  {
  }

  lemma AddAllNext(l: Limits, b: Packing, pieces: seq<string>, sep: string, j: nat)
    requires j < |pieces|
    ensures AddAll(l, b, pieces[..j + 1], sep) == Add(l, AddAll(l, b, pieces[..j], sep), pieces[j], sep)
  {
    assert pieces[..j + 1][..j] == pieces[..j];
  }

  lemma PackAllNext(l: Limits, paras: seq<string>, i: nat)
    requires i < |paras|
    ensures PackAll(l, paras[..i + 1]) == AddParagraph(l, PackAll(l, paras[..i]), paras[i])
  {
    assert paras[..i + 1][..i] == paras[..i];
  }

  method Chunk(l: Limits, text: string) returns (chunks: seq<ChunkInfo>)
    ensures chunks == Render(l, Groups(l, text))
  {
    hide Total, Join, Tail, MakeChunk, Pieces, Render, NextOverlap, AddAll, PackAll, Add, Flush;
    var paragraphs := Pieces(Paragraphs, text);
    chunks := [];
    var current: seq<string>, currentLen: nat, overlapTail: string := [], 0, "";
    Started(l, paragraphs);
    for i := 0 to |paragraphs|
      invariant Holds(l, PackAll(l, paragraphs[..i]), chunks, current, currentLen, overlapTail)
    {
      ghost var before := PackAll(l, paragraphs[..i]);
      PackAllNext(l, paragraphs, i);
      var para := paragraphs[i];
      var paraLen := |para|;
      HoldsFlush(l, before, chunks, current, currentLen, overlapTail, "\n\n");
      AddIs(l, before, para, "\n\n");
      if paraLen > l.maxChars {
        if current != [] {
          chunks := chunks + [MakeChunk(overlapTail + Join(current, "\n\n"))];
          overlapTail := Tail(l, Join(current, "\n\n"));
          current, currentLen := [], 0;
        }
        ghost var base := Flush(before, "\n\n");
        AddNone(l, base, "\n");
        var subs := Pieces(Sentences, para);
        for j := 0 to |subs|
          invariant Holds(l, AddAll(l, base, subs[..j], "\n"), chunks, current, currentLen, overlapTail)
        {
          ghost var packed := AddAll(l, base, subs[..j], "\n");
          AddAllNext(l, base, subs, "\n", j);
          HoldsFlush(l, packed, chunks, current, currentLen, overlapTail, "\n");
          AddIs(l, packed, subs[j], "\n");
          var sub := subs[j];
          if currentLen + |sub| > l.maxChars && current != [] {
            chunks := chunks + [MakeChunk(overlapTail + Join(current, "\n"))];
            overlapTail := Tail(l, Join(current, "\n"));
            current, currentLen := [], 0;
            packed := Flush(packed, "\n");
          }
          HoldsAppend(l, packed, chunks, current, currentLen, overlapTail, sub);
          current := current + [sub];
          currentLen := currentLen + |sub|;
        }
        assert subs[..|subs|] == subs;
        continue;
      }
      if currentLen + paraLen > l.maxChars && current != [] {
        chunks := chunks + [MakeChunk(overlapTail + Join(current, "\n\n"))];
        overlapTail := Tail(l, Join(current, "\n\n"));
        current, currentLen := [], 0;
        before := Flush(before, "\n\n");
      }
      HoldsAppend(l, before, chunks, current, currentLen, overlapTail, para);
      current := current + [para];
      currentLen := currentLen + paraLen;
    }
    assert paragraphs[..|paragraphs|] == paragraphs;
    HoldsFlush(l, PackAll(l, paragraphs), chunks, current, currentLen, overlapTail, "\n\n");
    if current != [] {
      chunks := chunks + [MakeChunk(overlapTail + Join(current, "\n\n"))];
    }
  }

  lemma Started(l: Limits, paragraphs: seq<string>)
    ensures Holds(l, PackAll(l, paragraphs[..0]), [], [], 0, "")
  {
  }

  lemma AddNone(l: Limits, b: Packing, sep: string)
    ensures forall s: seq<string> :: AddAll(l, b, s[..0], sep) == b
  {
  }
}
