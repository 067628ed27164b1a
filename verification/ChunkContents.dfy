/** Conservation as a caller sees it: on the contents of the chunks, for every text. */
module ChunkContents {
  import opened Sequences
  import opened Runes
  import opened Splitting
  import opened Packing
  import opened Chunking
  import opened ChunkInvariants
  import opened ChunkTheorems

  /** What each chunk repeats of the chunk before it: a text that ends the one and opens the other. */
  predicate Shares(cfg: ChunkConfig, chunks: seq<Chunk>, shared: seq<Text>) {
    && |shared| == |chunks|
    && forall k {:trigger SharesAt(cfg, chunks, shared, k)} :: 0 <= k < |chunks| ==> SharesAt(cfg, chunks, shared, k)
  }

  predicate SharesAt(cfg: ChunkConfig, chunks: seq<Chunk>, shared: seq<Text>, k: nat)
    requires k < |chunks| == |shared|
  {
    && |shared[k]| <= cfg.overlapSize && shared[k] <= chunks[k].content
    && if k == 0 then shared[k] == [] else EndsWith(chunks[k - 1].content, shared[k])
  }

  function Behind(content: Text, shared: Text): Text {
    if |shared| <= |content| then content[|shared|..] else []
  }

  /** The ink of all contents in order, each without what it repeats. */
  function NewInk(chunks: seq<Chunk>, shared: seq<Text>): Text
    requires |shared| == |chunks|
  {
    if chunks == [] then []
    else
      var n := |chunks| - 1;
      NewInk(chunks[..n], shared[..n]) + Ink(Behind(chunks[n].content, shared[n]))
  }

  function SharedOf(parts: seq<Part>): (shared: seq<Text>)
    ensures |shared| == |parts| && forall k :: 0 <= k < |parts| ==> shared[k] == Trim(parts[k].carried)
  {
    if parts == [] then [] else SharedOf(parts[..|parts| - 1]) + [Trim(parts[|parts| - 1].carried)]
  }

  /** What a chunk's content holds behind its overlap is its fresh ink. */
  lemma {:induction false} FreshBehind(cfg: ChunkConfig, p: Part)
    requires Emittable(cfg, p)
    ensures Trim(p.carried) <= Content(p) && Ink(Behind(Content(p), Trim(p.carried))) == Ink(Flatten(p.items))
  {
    hide Overlap;
    CarriedOpens(cfg, p);
    var content, shared := Content(p), Trim(p.carried);
    assert content == shared + content[|shared|..];
    InkConcat(shared, content[|shared|..]);
    BufferOfSound(cfg, p);
    TrimKeepsInk(Buffer(p));
    TrimKeepsInk(p.carried);
    Cancel(Ink(p.carried), Ink(content[|shared|..]), Ink(Flatten(p.items)));
  }

  lemma {:induction false} CarriedOpens(cfg: ChunkConfig, p: Part)
    requires Emittable(cfg, p)
    ensures Trim(p.carried) <= Content(p)
  {
    BufferOfSound(cfg, p);
    BufferOpens(p);
    if p.carried != [] {
      TrimPrefix(p.carried, Buffer(p));
    }
  }

  predicate AllEmittable(cfg: ChunkConfig, parts: seq<Part>) {
    forall k {:trigger Emittable(cfg, parts[k])} :: 0 <= k < |parts| ==> Emittable(cfg, parts[k])
  }

  lemma {:induction false} EmittableInit(cfg: ChunkConfig, parts: seq<Part>, n: nat)
    requires AllEmittable(cfg, parts) && n < |parts|
    ensures AllEmittable(cfg, parts[..n]) && Emittable(cfg, parts[n])
  {
    forall k | 0 <= k < n
      ensures Emittable(cfg, parts[..n][k])
    {
      assert Emittable(cfg, parts[k]);
    }
  }

  lemma {:induction false} NewInkAppend(chunks: seq<Chunk>, shared: seq<Text>, chunk: Chunk, s: Text)
    requires |shared| == |chunks|
    ensures NewInk(chunks + [chunk], shared + [s]) == NewInk(chunks, shared) + Ink(Behind(chunk.content, s))
  {
    assert (chunks + [chunk])[..|chunks|] == chunks && (shared + [s])[..|shared|] == shared;
  }

  lemma {:induction false} NewInkOfParts(cfg: ChunkConfig, parts: seq<Part>)
    requires AllEmittable(cfg, parts)
    ensures |Render(Content, parts, 0)| == |parts|
    ensures NewInk(Render(Content, parts, 0), SharedOf(parts)) == FreshInk(parts)
  {
    hide Emittable, Trim, Buffer;
    RenderAt(Content, parts, 0);
    if parts != [] {
      var n := |parts| - 1;
      var init, p := parts[..n], parts[n];
      EmittableInit(cfg, parts, n);
      NewInkOfParts(cfg, init);
      FreshBehind(cfg, p);
      assert parts == init + [p];
      FreshAppend(init, p);
      NewInkAppend(Render(Content, init, 0), SharedOf(init), Chunk(n, Content(p)), Trim(p.carried));
    }
  }

  lemma {:induction false} PartsShareAt(cfg: ChunkConfig, parts: seq<Part>, k: nat)
    requires GoodRun(cfg, parts) && k < |parts| == |Render(Content, parts, 0)|
    ensures SharesAt(cfg, Render(Content, parts, 0), SharedOf(parts), k)
  {
    hide Trim, Buffer, Overlap;
    RenderAt(Content, parts, 0);
    assert Emittable(cfg, parts[k]);
    if k == 0 {
      TrimOfTrimmed([]);
      CarriedOpens(cfg, parts[0]);
    } else {
      SharedInRun(cfg, parts, Render(Content, parts, 0), k);
    }
  }

  lemma {:induction false} PartsShare(cfg: ChunkConfig, parts: seq<Part>)
    requires GoodRun(cfg, parts)
    ensures Shares(cfg, Render(Content, parts, 0), SharedOf(parts))
  {
    hide SharesAt, GoodRun;
    RenderAt(Content, parts, 0);
    forall k | 0 <= k < |parts|
      ensures SharesAt(cfg, Render(Content, parts, 0), SharedOf(parts), k)
    {
      PartsShareAt(cfg, parts, k);
    }
  }

  /** Conservation for every text: apart from what each chunk repeats of the one before, the contents of the
      chunks hold the ink of a prefix of the text, and of all of it if the text is not split or the cap is
      not reached. */
  lemma {:induction false} ContentsConserved(cfg: ChunkConfig, text: Text) returns (shared: seq<Text>)
    ensures var chunks := Chunks(cfg, text);
      && Shares(cfg, chunks, shared)
      && NewInk(chunks, shared) <= Ink(text)
      && (|text| <= cfg.maxChunkSize || |chunks| < cfg.maxChunks ==> NewInk(chunks, shared) == Ink(text))
  {
    if |text| <= cfg.maxChunkSize {
      shared := [[]];
      assert SharesAt(cfg, Chunks(cfg, text), shared, 0);
      assert Chunks(cfg, text)[..0] == [] && shared[..0] == [];
      assert text[0..] == text && [] + Ink(text) == Ink(text);
    } else {
      var parts := TextParts(cfg, text);
      shared := SharedOf(parts);
      TextPartsGood(cfg, text);
      assert AllEmittable(cfg, parts);
      PartsShare(cfg, parts);
      NewInkOfParts(cfg, parts);
      var n := Conservation(cfg, text);
    }
  }

  function ContentsOf(chunks: seq<Chunk>): seq<Text> {
    if chunks == [] then [] else ContentsOf(chunks[..|chunks| - 1]) + [chunks[|chunks| - 1].content]
  }

  lemma {:induction false} NothingShared(chunks: seq<Chunk>, shared: seq<Text>)
    requires |shared| == |chunks| && forall k :: 0 <= k < |shared| ==> shared[k] == []
    ensures NewInk(chunks, shared) == Ink(Flatten(ContentsOf(chunks)))
  {
    if chunks != [] {
      var n := |chunks| - 1;
      NothingShared(chunks[..n], shared[..n]);
      assert Behind(chunks[n].content, shared[n]) == chunks[n].content;
      InkOfOneMore(ContentsOf(chunks[..n]), chunks[n].content);
    }
  }

  /** With no overlap configured, the contents make up the text's ink, one behind the other. */
  lemma {:induction false} WithoutOverlap(cfg: ChunkConfig, text: Text)
    requires cfg.overlapSize == 0
    ensures Ink(Flatten(ContentsOf(Chunks(cfg, text)))) <= Ink(text)
    ensures |text| <= cfg.maxChunkSize || |Chunks(cfg, text)| < cfg.maxChunks ==>
      Ink(Flatten(ContentsOf(Chunks(cfg, text)))) == Ink(text)
  {
    var shared := ContentsConserved(cfg, text);
    forall k | 0 <= k < |shared|
      ensures shared[k] == []
    {
      assert SharesAt(cfg, Chunks(cfg, text), shared, k);
    }
    NothingShared(Chunks(cfg, text), shared);
  }
}
