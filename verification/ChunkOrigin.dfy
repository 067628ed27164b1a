/** Which parts come from which over-long paragraph. */
module ChunkOrigin {
  import opened Runes
  import opened Splitting
  import opened Packing
  import opened Chunking
  import opened ChunkInvariants
  import opened ChunkTheorems

  /** The parts labelled with the `n`-th paragraph are `long`, next to each other, from place `at` on. */
  predicate Labelled(parts: seq<Part>, n: nat, at: nat, long: seq<Part>) {
    && at + |long| <= |parts|
    && (forall k :: 0 <= k < |parts| ==>
          if at <= k < at + |long| then parts[k] == long[k - at] else parts[k].kind != OfSentences(n))
  }

  lemma {:induction false} LabelledAppend(done: seq<Part>, p: Part, n: nat, at: nat, long: seq<Part>)
    requires Labelled(done, n, at, long) && p.kind == OfParagraphs
    ensures Labelled(done + [p], n, at, long) && Labelled(Flushed(done, p), n, at, long)
  {
  }

  lemma {:induction false} LabelledConcat(done: seq<Part>, more: seq<Part>, i: nat, n: nat, at: nat, long: seq<Part>)
    requires Labelled(done, n, at, long) && AllSentences(more, i) && (i == n ==> long == [])
    ensures if i == n then Labelled(done + more, n, |done|, more) else Labelled(done + more, n, at, long)
  {
  }

  /** What the packer emits for the `n`-th paragraph on its way to the `i`-th. */
  function Expected(cfg: ChunkConfig, paras: seq<Text>, i: nat, n: nat): seq<Part> {
    if n < i && n < |paras| && |paras[n]| > cfg.maxChunkSize then LongParagraphParts(cfg, paras[n], n) else []
  }

  lemma {:induction false} LabelledLong(cfg: ChunkConfig, done: seq<Part>, p: Part, paras: seq<Text>, i: nat,
                                        n: nat, at: nat) returns (at': nat)
    requires i < |paras| && |paras[i]| > cfg.maxChunkSize && p.kind == OfParagraphs
    requires Labelled(done, n, at, Expected(cfg, paras, i, n))
    ensures Labelled(AfterLong(cfg, done, p, paras, i), n, at', Expected(cfg, paras, i + 1, n))
  {
    LabelledAppend(done, p, n, at, Expected(cfg, paras, i, n));
    LongParagraphGood(cfg, paras[i], i);
    LabelledConcat(Flushed(done, p), LongParagraphParts(cfg, paras[i], i), i, n, at, Expected(cfg, paras, i, n));
    at' := if i == n then |Flushed(done, p)| else at;
  }

  lemma {:induction false} LabelledPlaced(cfg: ChunkConfig, done: seq<Part>, p: Part, paras: seq<Text>, i: nat,
                                          n: nat, at: nat)
    returns (done': seq<Part>, p': Part, at': nat)
    requires i < |paras| && p.kind == OfParagraphs && Labelled(done, n, at, Expected(cfg, paras, i, n))
    ensures p'.kind == OfParagraphs && Labelled(done', n, at', Expected(cfg, paras, i + 1, n))
    ensures PlaceParagraph(cfg, done, p, paras, i) == PackParagraphs(cfg, done', p', paras, i + 1)
  {
    hide LongParagraphParts, Overlap;
    if |paras[i]| > cfg.maxChunkSize {
      at' := LabelledLong(cfg, done, p, paras, i, n, at);
      done', p' := AfterLong(cfg, done, p, paras, i), Part(OfParagraphs, [], []);
    } else {
      done', p', at' := done, Extend(p, paras[i]), at;
    }
  }

  lemma {:induction false} PlaceLabelled(cfg: ChunkConfig, done: seq<Part>, p: Part, paras: seq<Text>, i: nat,
                                         n: nat, at: nat) returns (last: nat, at': nat)
    requires i < |paras| && p.kind == OfParagraphs && Labelled(done, n, at, Expected(cfg, paras, i, n))
    ensures Labelled(PlaceParagraph(cfg, done, p, paras, i), n, at', Expected(cfg, paras, last, n))
    ensures |PlaceParagraph(cfg, done, p, paras, i)| < cfg.maxChunks ==> last == |paras|
    decreases |paras| - i, 0
  {
    hide LongParagraphParts, Overlap;
    var done', p', at0 := LabelledPlaced(cfg, done, p, paras, i, n, at);
    last, at' := ParagraphsLabelled(cfg, done', p', paras, i + 1, n, at0);
  }

  lemma {:induction false} ParagraphsLabelled(cfg: ChunkConfig, done: seq<Part>, p: Part, paras: seq<Text>, i: nat,
                                              n: nat, at: nat) returns (last: nat, at': nat)
    requires i <= |paras| && p.kind == OfParagraphs && Labelled(done, n, at, Expected(cfg, paras, i, n))
    ensures Labelled(PackParagraphs(cfg, done, p, paras, i), n, at', Expected(cfg, paras, last, n))
    ensures |PackParagraphs(cfg, done, p, paras, i)| < cfg.maxChunks ==> last == |paras|
    decreases |paras| - i, 1
  {
    hide LongParagraphParts, Overlap;
    last, at' := i, at;
    LabelledAppend(done, p, n, at, Expected(cfg, paras, i, n));
    if i < |paras| {
      if Overflows(cfg, Buffer(p), paras[i]) {
        if |done| + 1 < cfg.maxChunks {
          last, at' := PlaceLabelled(cfg, done + [p], Successor(cfg, p), paras, i, n, at);
        }
      } else {
        last, at' := PlaceLabelled(cfg, done, p, paras, i, n, at);
      }
    }
  }

  /** The parts labelled with a paragraph are all the parts of that paragraph, which is over-long, next to
      each other and in order; or there are none of them, which is only so for an over-long paragraph if the
      cap is reached. So two parts of sentences are of the same kind exactly if they come from the same
      over-long paragraph. */
  lemma {:induction false} LabelsAreTrue(cfg: ChunkConfig, text: Text, n: nat) returns (at: nat, long: seq<Part>)
    ensures Labelled(TextParts(cfg, text), n, at, long)
    ensures long != [] ==>
      && n < |Paragraphs(text)| && |Paragraphs(text)[n]| > cfg.maxChunkSize
      && long == LongParagraphParts(cfg, Paragraphs(text)[n], n)
    ensures |TextParts(cfg, text)| < cfg.maxChunks && n < |Paragraphs(text)| ==>
      |Paragraphs(text)[n]| > cfg.maxChunkSize ==> long != []
  {
    var last;
    last, at := ParagraphsLabelled(cfg, [], Part(OfParagraphs, [], []), Paragraphs(text), 0, n, 0);
    long := Expected(cfg, Paragraphs(text), last, n);
    ParagraphsClean(text);
    if n < last && n < |Paragraphs(text)| {
      LongParagraphCount(cfg, Paragraphs(text)[n], n);
    }
  }
}
