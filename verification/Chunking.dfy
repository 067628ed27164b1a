/** The chunker: paragraphs packed greedily, over-long paragraphs packed sentence by sentence. */
module Chunking {
  import opened Runes
  import opened Splitting
  import opened Packing

  /** The parts of a text, given those already emitted, the one being filled, and the position of
      the next paragraph. The cap on the number of chunks is looked at in two places only: right
      after a full part is emitted, and at the very end. */
  function PackParagraphs(cfg: ChunkConfig, done: seq<Part>, p: Part, paras: seq<Text>, i: nat): seq<Part>
    requires i <= |paras|
    decreases |paras| - i, 1
  {
    if i == |paras| then
      if Buffer(p) != [] && |done| < cfg.maxChunks then done + [p] else done
    else if Overflows(cfg, Buffer(p), paras[i]) then
      if |done| + 1 >= cfg.maxChunks then done + [p]
      else PlaceParagraph(cfg, done + [p], Successor(cfg, p), paras, i)
    else
      PlaceParagraph(cfg, done, p, paras, i)
  }

  function PlaceParagraph(cfg: ChunkConfig, done: seq<Part>, p: Part, paras: seq<Text>, i: nat): seq<Part>
    requires i < |paras|
    decreases |paras| - i, 0
  {
    if |paras[i]| > cfg.maxChunkSize then
      PackParagraphs(cfg, AfterLong(cfg, done, p, paras, i), Part(OfParagraphs, [], []), paras, i + 1)
    else
      PackParagraphs(cfg, done, Extend(p, paras[i]), paras, i + 1)
  }

  function Flushed(done: seq<Part>, p: Part): seq<Part> {
    if Buffer(p) != [] then done + [p] else done
  }

  /** The parts emitted once an over-long paragraph is dealt with. */
  function AfterLong(cfg: ChunkConfig, done: seq<Part>, p: Part, paras: seq<Text>, i: nat): seq<Part>
    requires i < |paras|
  {
    Flushed(done, p) + LongParagraphParts(cfg, paras[i], i)
  }

  function TextParts(cfg: ChunkConfig, text: Text): seq<Part> {
    PackParagraphs(cfg, [], Part(OfParagraphs, [], []), Paragraphs(text), 0)
  }

  function Chunks(cfg: ChunkConfig, text: Text): seq<Chunk> {
    if |text| <= cfg.maxChunkSize then [Chunk(0, text)]
    else Render(Content, TextParts(cfg, text), 0)
  }

  /** The chunks so far are those of the parts so far, and the string builder holds the part being filled. */
  predicate InStep(chunks: seq<Chunk>, seqNo: nat, current: Text, done: seq<Part>, p: Part) {
    Rendered(chunks, 0, seqNo, done) && current == Buffer(p) && p.kind == OfParagraphs
  }

  /** The branch for an over-long paragraph: what is in the buffer becomes a chunk of its own, then
      the paragraph's sentences are packed. */
  method PlaceLongParagraph(cfg: ChunkConfig, before: seq<Chunk>, seq0: nat, current: Text,
                            para: Text, ghost n: nat, ghost done: seq<Part>, ghost p: Part)
    returns (chunks: seq<Chunk>, seqNo: nat)
    requires InStep(before, seq0, current, done, p)
    ensures Rendered(chunks, 0, seqNo, Flushed(done, p) + LongParagraphParts(cfg, para, n))
  {
    chunks, seqNo := before, seq0;
    if |current| > 0 {
      chunks, seqNo := EmitChunk(chunks, 0, seqNo, current, done, p);
    }
    var sentenceChunks;
    sentenceChunks, seqNo := SplitLongParagraph(cfg, seqNo, para, n);
    RenderJoin(Content, Flushed(done, p), LongParagraphParts(cfg, para, n), chunks, sentenceChunks);
    chunks := chunks + sentenceChunks;
  }

  /** The second half of the loop body: the paragraph is split, or added to the buffer. */
  method Place(cfg: ChunkConfig, before: seq<Chunk>, seq0: nat, buffer: Text, paras: seq<Text>, i: nat,
               ghost done: seq<Part>, ghost p: Part)
    returns (chunks: seq<Chunk>, seqNo: nat, current: Text, ghost done': seq<Part>, ghost p': Part)
    requires i < |paras| && InStep(before, seq0, buffer, done, p)
    ensures InStep(chunks, seqNo, current, done', p')
    ensures PackParagraphs(cfg, done', p', paras, i + 1) == PlaceParagraph(cfg, done, p, paras, i)
  {
    var para := paras[i];
    if |para| > cfg.maxChunkSize {
      chunks, seqNo := PlaceLongParagraph(cfg, before, seq0, buffer, para, i, done, p);
      current := [];
      done', p' := AfterLong(cfg, done, p, paras, i), Part(OfParagraphs, [], []);
      return;
    }
    BufferExtend(p, para);
    chunks, seqNo := before, seq0;
    current := WriteItem(buffer, BLANK_LINE, para);
    done', p' := done, Extend(p, para);
  }

  /** The first half of the loop body: a buffer that the paragraph would overflow is emitted, and unless
      the cap is reached then, the next one opens with its overlap. */
  method MakeRoom(cfg: ChunkConfig, before: seq<Chunk>, seq0: nat, buffer: Text, paras: seq<Text>, i: nat,
                  ghost done: seq<Part>, ghost p: Part)
    returns (full: bool, chunks: seq<Chunk>, seqNo: nat, current: Text, ghost done': seq<Part>, ghost p': Part)
    requires i < |paras| && InStep(before, seq0, buffer, done, p)
    ensures full ==> Rendered(chunks, 0, seqNo, PackParagraphs(cfg, done, p, paras, i))
    ensures !full ==>
      && InStep(chunks, seqNo, current, done', p')
      && PlaceParagraph(cfg, done', p', paras, i) == PackParagraphs(cfg, done, p, paras, i)
  {
    full, chunks, seqNo, current, done', p' := false, before, seq0, buffer, done, p;
    if |current| > 0 && |current| + |paras[i]| + 1 > cfg.maxChunkSize {
      chunks, seqNo := EmitChunk(chunks, 0, seqNo, current, done, p);
      if |chunks| >= cfg.maxChunks {
        full := true;
        return;
      }
      current := GetOverlap(cfg, current);
      done', p' := done + [p], Successor(cfg, p);
    }
  }

  /** The last chunk, if the cap leaves room for it. */
  method Finish(cfg: ChunkConfig, before: seq<Chunk>, seq0: nat, current: Text, paras: seq<Text>,
                ghost done: seq<Part>, ghost p: Part)
    returns (chunks: seq<Chunk>, seqNo: nat)
    requires InStep(before, seq0, current, done, p)
    ensures Rendered(chunks, 0, seqNo, PackParagraphs(cfg, done, p, paras, |paras|))
  {
    chunks, seqNo := before, seq0;
    if |current| > 0 && |chunks| < cfg.maxChunks {
      chunks, seqNo := EmitChunk(chunks, 0, seqNo, current, done, p);
    }
  }

  /** A text that fits is one chunk as it stands; any other is split. */
  method ChunkText(cfg: ChunkConfig, text: Text) returns (chunks: seq<Chunk>)
    ensures chunks == Chunks(cfg, text)
    ensures |text| <= cfg.maxChunkSize ==> |chunks| == 1 && chunks[0].sequence == 0 && chunks[0].content == text
  {
    if |text| <= cfg.maxChunkSize {
      return [Chunk(0, text)];
    }
    var paragraphs := SplitParagraphs(text);
    chunks := [];
    var current: Text := [];
    var seqNo := 0;
    ghost var done, p := [], Part(OfParagraphs, [], []);
    for i := 0 to |paragraphs|
      invariant InStep(chunks, seqNo, current, done, p)
      invariant PackParagraphs(cfg, done, p, paragraphs, i) == TextParts(cfg, text)
    {
      var full;
      full, chunks, seqNo, current, done, p := MakeRoom(cfg, chunks, seqNo, current, paragraphs, i, done, p);
      if full {
        return;
      }
      chunks, seqNo, current, done, p := Place(cfg, chunks, seqNo, current, paragraphs, i, done, p);
    }
    chunks, seqNo := Finish(cfg, chunks, seqNo, current, paragraphs, done, p);
  }
}
