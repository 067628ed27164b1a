/** Where a chunk ends: only where the next item would not have fitted, or right before an over-long
    paragraph, where an overlap may be left over as a chunk of its own. */
module ChunkGreedy {
  import opened Runes
  import opened Splitting
  import opened Packing
  import opened Chunking
  import opened ChunkInvariants
  import opened ChunkTheorems

  // --- Neighbouring parts ---

  /** If two neighbours belong together, the second one's first fresh item would have overflowed the first. */
  predicate Full(cfg: ChunkConfig, q: Part, p: Part) {
    q.kind == p.kind && p.items != [] ==> Overflows(cfg, Buffer(q), p.items[0])
  }

  /** A part without fresh items stands between paragraphs and sentences; and what stands there has none
      if and only if there is an overlap at all. */
  predicate Flushes(cfg: ChunkConfig, q: Part, p: Part) {
    && (q.items == [] ==> q.kind.OfParagraphs? && p.kind.OfSentences?)
    && (q.kind.OfParagraphs? && p.kind.OfSentences? ==> (q.items == [] <==> cfg.overlapSize > 0))
  }

  predicate FullRun(cfg: ChunkConfig, parts: seq<Part>) {
    forall j, k {:trigger Full(cfg, parts[j], parts[k])} ::
      0 <= j < |parts| - 1 && k == j + 1 ==> Full(cfg, parts[j], parts[k])
  }

  predicate Neat(cfg: ChunkConfig, parts: seq<Part>) {
    && FullRun(cfg, parts)
    && forall j, k {:trigger Flushes(cfg, parts[j], parts[k])} ::
         0 <= j < |parts| - 1 && k == j + 1 ==> Flushes(cfg, parts[j], parts[k])
  }

  predicate EndsFresh(parts: seq<Part>) {
    parts != [] ==> parts[|parts| - 1].items != []
  }

  predicate FullNext(cfg: ChunkConfig, done: seq<Part>, p: Part) {
    done != [] ==> Full(cfg, done[|done| - 1], p)
  }

  lemma {:induction false} FullAppend(cfg: ChunkConfig, done: seq<Part>, p: Part)
    requires FullRun(cfg, done) && FullNext(cfg, done, p)
    ensures FullRun(cfg, done + [p])
  {
  }

  lemma {:induction false} NeatAppend(cfg: ChunkConfig, done: seq<Part>, p: Part)
    requires Neat(cfg, done) && FullNext(cfg, done, p) && (done != [] ==> Flushes(cfg, done[|done| - 1], p))
    ensures Neat(cfg, done + [p])
  {
  }

  // --- The sentences of one over-long paragraph ---

  /** The sentence packer begins a new part only for a sentence that would have overflowed the last one,
      with an overlap or without. */
  lemma {:induction false} SentencesFull(cfg: ChunkConfig, done: seq<Part>, p: Part, items: seq<Text>, i: nat, n: nat)
    requires i <= |items| && p.kind == OfSentences(n) && FullRun(cfg, done) && FullNext(cfg, done, p)
    requires p.items == [] ==> done == []
    ensures FullRun(cfg, PackItems(cfg, done, p, items, i))
    decreases |items| - i
  {
    FullAppend(cfg, done, p);
    if i < |items| {
      if Overflows(cfg, Buffer(p), items[i]) {
        SentencesFull(cfg, done + [p], Extend(Successor(cfg, p), items[i]), items, i + 1, n);
      } else {
        SentencesFull(cfg, done, Extend(p, items[i]), items, i + 1, n);
      }
    }
  }

  /** Every part of an over-long paragraph but the first begins with a sentence that would have overflowed
      the part before it. */
  lemma {:induction false} LongParagraphFull(cfg: ChunkConfig, para: Text, n: nat)
    ensures var parts := LongParagraphParts(cfg, para, n);
      forall k :: 0 < k < |parts| ==> parts[k].items != [] && Overflows(cfg, Buffer(parts[k - 1]), parts[k].items[0])
  {
    SentencesFull(cfg, [], Part(OfSentences(n), [], []), Sentences(para), 0, n);
    LongParagraphGood(cfg, para, n);
    var parts := LongParagraphParts(cfg, para, n);
    assert forall k :: 0 < k < |parts| ==> Full(cfg, parts[k - 1], parts[k]);
  }

  lemma {:induction false} NeatConcat(cfg: ChunkConfig, a: seq<Part>, b: seq<Part>, n: nat)
    requires Neat(cfg, a) && FullRun(cfg, b) && AllSentences(b, n) && Before(a, n)
    requires a != [] && b != [] ==> Flushes(cfg, a[|a| - 1], b[0])
    ensures Neat(cfg, a + b)
  {
    var all := a + b;
    forall k | 0 < k < |all|
      ensures Full(cfg, all[k - 1], all[k]) && Flushes(cfg, all[k - 1], all[k])
    {
      if k > |a| {
        assert Full(cfg, b[k - |a| - 1], b[k - |a|]);
      }
    }
  }

  // --- The paragraph packer, step by step ---

  /** Between two paragraphs: everything emitted is neat, and the buffer has something fresh in it unless
      nothing was emitted yet or an over-long paragraph has just been dealt with. */
  predicate Resting(cfg: ChunkConfig, done: seq<Part>, p: Part, i: nat) {
    && Steady(cfg, done, p, i) && Neat(cfg, done) && EndsFresh(done) && FullNext(cfg, done, p)
    && (p.items == [] && done != [] ==> done[|done| - 1].kind.OfSentences?)
  }

  /** The buffer was just emitted, to make room for an item. */
  predicate Cleared(cfg: ChunkConfig, done: seq<Part>, p: Part, item: Text, i: nat) {
    && Steady(cfg, done, p, i) && Neat(cfg, done) && EndsFresh(done)
    && p.items == [] && done != [] && done[|done| - 1].kind == OfParagraphs
    && Overflows(cfg, Buffer(done[|done| - 1]), item)
  }

  /** When an item is placed. */
  predicate Placing(cfg: ChunkConfig, done: seq<Part>, p: Part, item: Text, i: nat) {
    Cleared(cfg, done, p, item, i) || (Resting(cfg, done, p, i) && !Overflows(cfg, Buffer(p), item))
  }

  /** A buffer is not empty if and only if it has something fresh in it. */
  lemma {:induction false} RestingBuffer(cfg: ChunkConfig, done: seq<Part>, p: Part, i: nat)
    requires Resting(cfg, done, p, i)
    ensures Buffer(p) != [] <==> p.items != []
  {
    BufferOfSound(cfg, p);
  }

  lemma {:induction false} RestingEmit(cfg: ChunkConfig, done: seq<Part>, p: Part, i: nat)
    requires Resting(cfg, done, p, i) && Buffer(p) != []
    ensures Neat(cfg, done + [p]) && EndsFresh(done + [p])
  {
    RestingBuffer(cfg, done, p, i);
    NeatAppend(cfg, done, p);
  }

  lemma {:induction false} RestingOverflows(cfg: ChunkConfig, done: seq<Part>, p: Part, item: Text, i: nat)
    requires Resting(cfg, done, p, i) && Overflows(cfg, Buffer(p), item)
    ensures Cleared(cfg, done + [p], Successor(cfg, p), item, i)
  {
    hide LongParagraphParts, Overlap;
    RestingEmit(cfg, done, p, i);
    SteadyOverflow(cfg, done, p, i);
  }

  lemma {:induction false} SteadyExtend(cfg: ChunkConfig, done: seq<Part>, p: Part, item: Text, i: nat)
    requires Steady(cfg, done, p, i) && item != [] && Trimmed(item)
    ensures Steady(cfg, done, Extend(p, item), i + 1)
  {
    SoundExtend(cfg, p, item);
  }

  lemma {:induction false} FullExtend(cfg: ChunkConfig, done: seq<Part>, p: Part, item: Text, i: nat)
    requires Placing(cfg, done, p, item, i)
    ensures FullNext(cfg, done, Extend(p, item))
  {
    if done != [] && p.items != [] {
      assert Full(cfg, done[|done| - 1], p);
      assert Extend(p, item).items[0] == p.items[0];
    }
  }

  lemma {:induction false} PlacingShort(cfg: ChunkConfig, done: seq<Part>, p: Part, item: Text, i: nat)
    requires Placing(cfg, done, p, item, i) && item != [] && Trimmed(item)
    ensures Resting(cfg, done, Extend(p, item), i + 1)
  {
    hide LongParagraphParts, Overlap;
    SteadyExtend(cfg, done, p, item, i);
    FullExtend(cfg, done, p, item, i);
  }

  /** What is flushed before an over-long paragraph has no fresh items: either the buffer was emitted just
      before, and holds its overlap, or it is empty. */
  lemma {:induction false} FlushedNeat(cfg: ChunkConfig, done: seq<Part>, p: Part, item: Text, i: nat, s: Part)
    requires Placing(cfg, done, p, item, i) && |item| > cfg.maxChunkSize && s.kind == OfSentences(i)
    ensures Buffer(p) != [] ==> p.items == []
    ensures Neat(cfg, Flushed(done, p)) && Before(Flushed(done, p), i)
    ensures Flushed(done, p) != [] ==> Flushes(cfg, Flushed(done, p)[|Flushed(done, p)| - 1], s)
  {
    BufferOfSound(cfg, p);
    if Cleared(cfg, done, p, item, i) {
      var q := done[|done| - 1];
      assert Emittable(cfg, q) && Follows(cfg, q, p);
      CarriedExactly(cfg, q, p);
      if Buffer(p) != [] {
        NeatAppend(cfg, done, p);
      }
    }
  }

  lemma {:induction false} PlacingLong(cfg: ChunkConfig, done: seq<Part>, p: Part, paras: seq<Text>, i: nat)
    requires i < |paras| && CleanItems(paras) && Placing(cfg, done, p, paras[i], i) && |paras[i]| > cfg.maxChunkSize
    ensures Buffer(p) != [] ==> p.items == []
    ensures Resting(cfg, AfterLong(cfg, done, p, paras, i), Part(OfParagraphs, [], []), i + 1)
  {
    var parts := LongParagraphParts(cfg, paras[i], i);
    SteadyAfterLong(cfg, done, p, paras, i);
    SentencesFull(cfg, [], Part(OfSentences(i), [], []), Sentences(paras[i]), 0, i);
    LongParagraphGood(cfg, paras[i], i);
    LongParagraphCount(cfg, paras[i], i);
    FlushedNeat(cfg, done, p, paras[i], i, parts[0]);
    NeatConcat(cfg, Flushed(done, p), parts, i);
  }

  lemma {:induction false} PlaceNeat(cfg: ChunkConfig, done: seq<Part>, p: Part, paras: seq<Text>, i: nat)
    requires i < |paras| && CleanItems(paras) && Placing(cfg, done, p, paras[i], i)
    ensures Neat(cfg, PlaceParagraph(cfg, done, p, paras, i)) && EndsFresh(PlaceParagraph(cfg, done, p, paras, i))
    decreases |paras| - i, 0
  {
    hide LongParagraphParts, Overlap;
    if |paras[i]| > cfg.maxChunkSize {
      PlacingLong(cfg, done, p, paras, i);
      ParagraphsNeat(cfg, AfterLong(cfg, done, p, paras, i), Part(OfParagraphs, [], []), paras, i + 1);
    } else {
      PlacingShort(cfg, done, p, paras[i], i);
      ParagraphsNeat(cfg, done, Extend(p, paras[i]), paras, i + 1);
    }
  }

  lemma {:induction false} ParagraphsNeat(cfg: ChunkConfig, done: seq<Part>, p: Part, paras: seq<Text>, i: nat)
    requires i <= |paras| && CleanItems(paras) && Resting(cfg, done, p, i)
    ensures Neat(cfg, PackParagraphs(cfg, done, p, paras, i)) && EndsFresh(PackParagraphs(cfg, done, p, paras, i))
    decreases |paras| - i, 1
  {
    hide LongParagraphParts, Overlap;
    if Buffer(p) != [] {
      RestingEmit(cfg, done, p, i);
    }
    if i < |paras| {
      if Overflows(cfg, Buffer(p), paras[i]) {
        RestingOverflows(cfg, done, p, paras[i], i);
        if |done| + 1 < cfg.maxChunks {
          PlaceNeat(cfg, done + [p], Successor(cfg, p), paras, i);
        }
      } else {
        PlaceNeat(cfg, done, p, paras, i);
      }
    }
  }

  lemma {:induction false} TextPartsNeat(cfg: ChunkConfig, text: Text)
    ensures Neat(cfg, TextParts(cfg, text)) && EndsFresh(TextParts(cfg, text))
  {
    ParagraphsClean(text);
    TextPartsGood(cfg, text);
    ParagraphsNeat(cfg, [], Part(OfParagraphs, [], []), Paragraphs(text), 0);
  }

  // --- The theorems ---

  /** Greediness, the converse of the size bounds: where two neighbouring chunks belong together, the next
      paragraph, or the next sentence of the same over-long paragraph, would have taken the first one's
      buffer over MaxChunkSize. */
  lemma {:induction false} ChunksAreFull(cfg: ChunkConfig, text: Text, k: nat)
    requires 0 < k < |TextParts(cfg, text)| && Together(cfg, text, k) && TextParts(cfg, text)[k].items != []
    ensures |Buffer(TextParts(cfg, text)[k - 1])| + 1 + |TextParts(cfg, text)[k].items[0]| > cfg.maxChunkSize
  {
    TextPartsNeat(cfg, text);
    assert Full(cfg, TextParts(cfg, text)[k - 1], TextParts(cfg, text)[k]);
  }

  predicate BeforeLong(parts: seq<Part>, k: nat)
    requires k < |parts|
  {
    parts[k].kind.OfParagraphs? && k + 1 < |parts| && parts[k + 1].kind.OfSentences?
  }

  /** Chunks of overlap only: with an overlap configured, they are exactly the chunks that stand directly
      before an over-long paragraph and are not themselves of one; without, there are none. */
  lemma {:induction false} OverlapOnly(cfg: ChunkConfig, text: Text, k: nat)
    requires k < |TextParts(cfg, text)|
    ensures TextParts(cfg, text)[k].items == [] <==> cfg.overlapSize > 0 && BeforeLong(TextParts(cfg, text), k)
  {
    TextPartsNeat(cfg, text);
    TextPartsGood(cfg, text);
    OverlapOnlyInRun(cfg, TextParts(cfg, text), k);
  }

  lemma {:induction false} OverlapOnlyInRun(cfg: ChunkConfig, parts: seq<Part>, k: nat)
    requires GoodRun(cfg, parts) && Neat(cfg, parts) && EndsFresh(parts) && k < |parts|
    ensures parts[k].items == [] <==> cfg.overlapSize > 0 && BeforeLong(parts, k)
  {
    assert Emittable(cfg, parts[k]);
    BufferOfSound(cfg, parts[k]);
    assert k + 1 < |parts| ==> Flushes(cfg, parts[k + 1 - 1], parts[k + 1]);
  }
}
