/** What the packers keep, part by part: the induction behind the chunker's theorems. */
module ChunkInvariants {
  import opened Sequences
  import opened Runes
  import opened Splitting
  import opened Packing
  import opened Chunking

  // --- What every part keeps while it grows ---

  predicate Sound(cfg: ChunkConfig, p: Part) {
    && CleanItems(p.items)
    && |p.carried| <= cfg.overlapSize
    && (p.carried != [] ==> !IsSpace(p.carried[|p.carried| - 1]))
  }

  lemma {:induction false} SoundExtend(cfg: ChunkConfig, p: Part, item: Text)
    requires Sound(cfg, p) && item != [] && Trimmed(item)
    ensures Sound(cfg, Extend(p, item)) && Buffer(Extend(p, item)) != []
    ensures |Buffer(Extend(p, item))| == |Buffer(p)| + (if Buffer(p) == [] then 0 else |Separator(p.kind)|) + |item|
  {
    BufferExtend(p, item);
  }

  lemma {:induction false} BufferInk(p: Part)
    ensures Ink(Buffer(p)) == Ink(p.carried) + Ink(Flatten(p.items))
    decreases |p.items|
  {
    if p.items != [] {
      var n := |p.items| - 1;
      var init, last := p.(items := p.items[..n]), p.items[n];
      BufferInk(init);
      SeparatorHasNoInk(p.kind);
      InkOfAppend(Buffer(init), Separator(p.kind), last);
      InkOfNext(p.items, n);
      assert p.items[..n + 1] == p.items;
    }
  }

  lemma {:induction false} InkOfNext(items: seq<Text>, i: nat)
    requires i < |items|
    ensures Ink(Flatten(items[..i + 1])) == Ink(Flatten(items[..i])) + Ink(items[i])
  {
    assert items[..i + 1] == items[..i] + [items[i]];
    FlattenConcat(items[..i], [items[i]]);
    assert Flatten([items[i]]) == items[i] + Flatten([]) == items[i];
    InkConcat(Flatten(items[..i]), items[i]);
  }

  /** A buffer holds the ink of its overlap and of its fresh items, it is empty only if it has
      neither, and it never ends in white space. */
  lemma {:induction false} BufferOfSound(cfg: ChunkConfig, p: Part)
    requires Sound(cfg, p)
    ensures Ink(Buffer(p)) == Ink(p.carried) + Ink(Flatten(p.items))
    ensures Buffer(p) == [] <==> p.carried == [] && p.items == []
    ensures Buffer(p) != [] ==> !IsSpace(Buffer(p)[|Buffer(p)| - 1])
  {
    BufferInk(p);
    if p.items != [] {
      var n := |p.items| - 1;
      var head := Buffer(p.(items := p.items[..n]));
      assert p.items[n] != [] && Trimmed(p.items[n]);
      assert Buffer(p) == Append(head, Separator(p.kind), p.items[n]);
    }
  }

  lemma {:induction false} InkOfAppend(buffer: Text, sep: Text, item: Text)
    requires Ink(sep) == []
    ensures Ink(Append(buffer, sep, item)) == Ink(buffer) + Ink(item)
  {
    InkConcat(buffer, sep);
    InkConcat(if |buffer| > 0 then buffer + sep else buffer, item);
  }

  /** The buffer in closed form. */
  lemma {:induction false} BufferForm(p: Part)
    requires CleanItems(p.items)
    ensures Buffer(p) ==
      if p.items == [] then p.carried
      else (if p.carried == [] then [] else p.carried + Separator(p.kind)) + Join(p.items, Separator(p.kind))
    decreases |p.items|
  {
    if p.items != [] {
      var n := |p.items| - 1;
      var init, last := p.(items := p.items[..n]), p.items[n];
      var head := if p.carried == [] then [] else p.carried + Separator(p.kind);
      BufferForm(init);
      if n > 0 {
        JoinOfCleanItems(init.items, Separator(p.kind));
      }
      AppendForm(head, Join(init.items, Separator(p.kind)), Separator(p.kind), last);
    }
  }

  lemma {:induction false} AppendForm(head: Text, joined: Text, sep: Text, last: Text)
    ensures head + (joined + sep + last) == (head + joined) + sep + last
    ensures [] + last == last
  {
  }

  lemma {:induction false} SoundSuccessor(cfg: ChunkConfig, p: Part)
    requires Sound(cfg, p) && Buffer(p) != []
    ensures Sound(cfg, Successor(cfg, p))
  {
    BufferOfSound(cfg, p);
    OverlapShape(cfg.overlapSize, Buffer(p));
  }

  // --- How many parts ---

  lemma {:induction false} SentencesCount(cfg: ChunkConfig, done: seq<Part>, p: Part, items: seq<Text>, i: nat)
    requires i <= |items| && CleanItems(items)
    requires Sound(cfg, p) && p.kind.OfSentences? && (p.items == [] ==> p.carried == [])
    ensures |done| + (if Buffer(p) != [] || i < |items| then 1 else 0)
         <= |PackItems(cfg, done, p, items, i)|
         <= |done| + (if Buffer(p) != [] then 1 else 0) + |items| - i
    decreases |items| - i
  {
    BufferOfSound(cfg, p);
    if i < |items| {
      if Overflows(cfg, Buffer(p), items[i]) {
        SoundSuccessor(cfg, p);
        SoundExtend(cfg, Successor(cfg, p), items[i]);
        SentencesCount(cfg, done + [p], Extend(Successor(cfg, p), items[i]), items, i + 1);
      } else {
        SoundExtend(cfg, p, items[i]);
        SentencesCount(cfg, done, Extend(p, items[i]), items, i + 1);
      }
    }
  }

  /** An over-long paragraph gives at least one part and at most one per sentence. */
  lemma {:induction false} LongParagraphCount(cfg: ChunkConfig, para: Text, n: nat)
    requires Trimmed(para) && para != []
    ensures 1 <= |LongParagraphParts(cfg, para, n)| <= |Sentences(para)|
  {
    SentencesClean(para);
    TrimOfTrimmed(para);
    TrimKeepsInk(para);
    assert Sentences(para) == [] ==> Ink(Flatten(Sentences(para))) == [];
    SentencesCount(cfg, [], Part(OfSentences(n), [], []), Sentences(para), 0);
  }

  // --- What the list of emitted parts keeps ---

  /** `p` opens with the overlap taken from the part before it exactly if both are made of paragraphs, or
      of sentences of the same over-long paragraph. */
  predicate Follows(cfg: ChunkConfig, q: Part, p: Part) {
    p.carried == if q.kind == p.kind then Overlap(cfg.overlapSize, Buffer(q)) else []
  }

  predicate Opens(cfg: ChunkConfig, done: seq<Part>, p: Part) {
    if done == [] then p.carried == [] else Follows(cfg, done[|done| - 1], p)
  }

  predicate Emittable(cfg: ChunkConfig, p: Part) {
    Sound(cfg, p) && Buffer(p) != []
  }

  /** A list of parts as the packers emit it. */
  predicate GoodRun(cfg: ChunkConfig, parts: seq<Part>) {
    && (forall k {:trigger Emittable(cfg, parts[k])} :: 0 <= k < |parts| ==> Emittable(cfg, parts[k]))
    && (parts != [] ==> parts[0].carried == [])
    && (forall j, k {:trigger Follows(cfg, parts[j], parts[k])} ::
          0 <= j < |parts| - 1 && k == j + 1 ==> Follows(cfg, parts[j], parts[k]))
  }

  predicate AllSentences(parts: seq<Part>, n: nat) {
    forall k :: 0 <= k < |parts| ==> parts[k].kind == OfSentences(n) && parts[k].items != []
  }

  lemma {:induction false} GoodRunAppend(cfg: ChunkConfig, done: seq<Part>, p: Part)
    requires GoodRun(cfg, done) && Emittable(cfg, p) && Opens(cfg, done, p)
    ensures GoodRun(cfg, done + [p])
  {
  }

  /** No part is of the `n`-th paragraph or a later one. */
  predicate Before(parts: seq<Part>, n: nat) {
    forall k :: 0 <= k < |parts| && parts[k].kind.OfSentences? ==> parts[k].kind.paragraph < n
  }

  /** The parts of an over-long paragraph can follow any others. */
  lemma {:induction false} GoodRunConcat(cfg: ChunkConfig, a: seq<Part>, b: seq<Part>, n: nat)
    requires GoodRun(cfg, a) && GoodRun(cfg, b) && AllSentences(b, n) && Before(a, n)
    ensures GoodRun(cfg, a + b) && Before(a + b, n + 1)
  {
    var all := a + b;
    forall k | 0 < k < |all|
      ensures Follows(cfg, all[k - 1], all[k])
    {
      if k > |a| {
        assert Follows(cfg, b[k - |a| - 1], b[k - |a|]);
      }
    }
  }

  /** What the sentence packer keeps. */
  predicate SentencesSteady(cfg: ChunkConfig, done: seq<Part>, p: Part, n: nat) {
    && GoodRun(cfg, done) && AllSentences(done, n)
    && Sound(cfg, p) && Opens(cfg, done, p) && p.kind == OfSentences(n)
    && (p.items == [] ==> p.carried == [])
  }

  lemma {:induction false} SentencesEmit(cfg: ChunkConfig, done: seq<Part>, p: Part, n: nat)
    requires SentencesSteady(cfg, done, p, n) && Buffer(p) != []
    ensures GoodRun(cfg, done + [p]) && AllSentences(done + [p], n)
  {
    BufferOfSound(cfg, p);
    GoodRunAppend(cfg, done, p);
  }

  lemma {:induction false} SentencesOverflow(cfg: ChunkConfig, done: seq<Part>, p: Part, item: Text, n: nat)
    requires SentencesSteady(cfg, done, p, n) && Buffer(p) != [] && item != [] && Trimmed(item)
    ensures SentencesSteady(cfg, done + [p], Extend(Successor(cfg, p), item), n)
  {
    SentencesEmit(cfg, done, p, n);
    SoundSuccessor(cfg, p);
    SoundExtend(cfg, Successor(cfg, p), item);
  }

  lemma {:induction false} SentencesExtend(cfg: ChunkConfig, done: seq<Part>, p: Part, item: Text, n: nat)
    requires SentencesSteady(cfg, done, p, n) && item != [] && Trimmed(item)
    ensures SentencesSteady(cfg, done, Extend(p, item), n)
  {
    SoundExtend(cfg, p, item);
  }

  lemma {:induction false} SentencesGood(cfg: ChunkConfig, done: seq<Part>, p: Part, items: seq<Text>, i: nat, n: nat)
    requires i <= |items| && CleanItems(items) && SentencesSteady(cfg, done, p, n)
    ensures GoodRun(cfg, PackItems(cfg, done, p, items, i))
    ensures AllSentences(PackItems(cfg, done, p, items, i), n)
    decreases |items| - i
  {
    if i == |items| {
      if Buffer(p) != [] {
        SentencesEmit(cfg, done, p, n);
      }
    } else if Overflows(cfg, Buffer(p), items[i]) {
      SentencesOverflow(cfg, done, p, items[i], n);
      SentencesGood(cfg, done + [p], Extend(Successor(cfg, p), items[i]), items, i + 1, n);
    } else {
      SentencesExtend(cfg, done, p, items[i], n);
      SentencesGood(cfg, done, Extend(p, items[i]), items, i + 1, n);
    }
  }

  lemma {:induction false} LongParagraphGood(cfg: ChunkConfig, para: Text, n: nat)
    ensures GoodRun(cfg, LongParagraphParts(cfg, para, n)) && AllSentences(LongParagraphParts(cfg, para, n), n)
  {
    SentencesClean(para);
    SentencesGood(cfg, [], Part(OfSentences(n), [], []), Sentences(para), 0, n);
  }

  /** What the paragraph packer keeps when it comes to the `i`-th paragraph. */
  predicate Steady(cfg: ChunkConfig, done: seq<Part>, p: Part, i: nat) {
    GoodRun(cfg, done) && Before(done, i) && Sound(cfg, p) && Opens(cfg, done, p) && p.kind == OfParagraphs
  }

  lemma {:induction false} SteadyFlush(cfg: ChunkConfig, done: seq<Part>, p: Part, i: nat)
    requires Steady(cfg, done, p, i)
    ensures GoodRun(cfg, Flushed(done, p)) && Before(Flushed(done, p), i)
  {
    if Buffer(p) != [] {
      GoodRunAppend(cfg, done, p);
    }
  }

  lemma {:induction false} SteadyAfterLong(cfg: ChunkConfig, done: seq<Part>, p: Part, paras: seq<Text>, i: nat)
    requires i < |paras| && CleanItems(paras) && Steady(cfg, done, p, i)
    ensures Steady(cfg, AfterLong(cfg, done, p, paras, i), Part(OfParagraphs, [], []), i + 1)
  {
    SteadyFlush(cfg, done, p, i);
    LongParagraphGood(cfg, paras[i], i);
    LongParagraphCount(cfg, paras[i], i);
    GoodRunConcat(cfg, Flushed(done, p), LongParagraphParts(cfg, paras[i], i), i);
  }

  lemma {:induction false} PlaceGood(cfg: ChunkConfig, done: seq<Part>, p: Part, paras: seq<Text>, i: nat)
    requires i < |paras| && CleanItems(paras) && Steady(cfg, done, p, i)
    ensures GoodRun(cfg, PlaceParagraph(cfg, done, p, paras, i))
    decreases |paras| - i, 0
  {
    hide LongParagraphParts, Overlap;
    if |paras[i]| > cfg.maxChunkSize {
      SteadyAfterLong(cfg, done, p, paras, i);
      ParagraphsGood(cfg, AfterLong(cfg, done, p, paras, i), Part(OfParagraphs, [], []), paras, i + 1);
    } else {
      SoundExtend(cfg, p, paras[i]);
      ParagraphsGood(cfg, done, Extend(p, paras[i]), paras, i + 1);
    }
  }

  lemma {:induction false} SteadyOverflow(cfg: ChunkConfig, done: seq<Part>, p: Part, i: nat)
    requires Steady(cfg, done, p, i) && Buffer(p) != []
    ensures Steady(cfg, done + [p], Successor(cfg, p), i)
  {
    GoodRunAppend(cfg, done, p);
    SoundSuccessor(cfg, p);
  }

  lemma {:induction false} ParagraphsGood(cfg: ChunkConfig, done: seq<Part>, p: Part, paras: seq<Text>, i: nat)
    requires i <= |paras| && CleanItems(paras) && Steady(cfg, done, p, i)
    ensures GoodRun(cfg, PackParagraphs(cfg, done, p, paras, i))
    decreases |paras| - i, 1
  {
    hide LongParagraphParts, Overlap;
    if Buffer(p) != [] {
      SteadyOverflow(cfg, done, p, i);
    }
    if i < |paras| {
      if Overflows(cfg, Buffer(p), paras[i]) {
        if |done| + 1 < cfg.maxChunks {
          PlaceGood(cfg, done + [p], Successor(cfg, p), paras, i);
        }
      } else {
        PlaceGood(cfg, done, p, paras, i);
      }
    }
  }

  // --- How large a part is ---

  /** A part of paragraphs overshoots the limit by at most its overlap and a separator, and by at
      most one character once it holds two paragraphs; a part of sentences overshoots only while it
      holds a single one. */
  predicate SizeOk(cfg: ChunkConfig, longest: nat, p: Part) {
    p.items != [] ==>
      && (p.kind == OfParagraphs && |p.items| == 1 ==>
            |Buffer(p)| <= (if p.carried == [] then 0 else |p.carried| + 2) + cfg.maxChunkSize)
      && (p.kind == OfParagraphs && |p.items| > 1 ==> |Buffer(p)| <= cfg.maxChunkSize + 1)
      && (p.kind.OfSentences? && |p.items| == 1 ==>
            |Buffer(p)| <= (if p.carried == [] then 0 else |p.carried| + 1) + longest)
      && (p.kind.OfSentences? && |p.items| > 1 ==> |Buffer(p)| <= cfg.maxChunkSize)
  }

  predicate AllSized(cfg: ChunkConfig, longest: nat, parts: seq<Part>) {
    forall k {:trigger SizeOk(cfg, longest, parts[k])} :: 0 <= k < |parts| ==> SizeOk(cfg, longest, parts[k])
  }

  /** An item that follows an overlap, or that fitted, keeps the size in bounds. */
  lemma {:induction false} SizeExtend(cfg: ChunkConfig, longest: nat, p: Part, item: Text)
    requires Sound(cfg, p) && item != [] && Trimmed(item)
    requires p.items == [] || !Overflows(cfg, Buffer(p), item)
    requires |item| <= if p.kind.OfSentences? then longest else cfg.maxChunkSize
    ensures SizeOk(cfg, longest, Extend(p, item))
  {
    SoundExtend(cfg, p, item);
    BufferOfSound(cfg, p);
  }

  lemma {:induction false} SentencesSized(cfg: ChunkConfig, longest: nat, done: seq<Part>, p: Part, items: seq<Text>,
                                          i: nat)
    requires i <= |items| && CleanItems(items) && forall j :: 0 <= j < |items| ==> |items[j]| <= longest
    requires AllSized(cfg, longest, done)
    requires Sound(cfg, p) && p.kind.OfSentences? && SizeOk(cfg, longest, p)
    ensures AllSized(cfg, longest, PackItems(cfg, done, p, items, i))
    decreases |items| - i
  {
    if i < |items| {
      BufferOfSound(cfg, p);
      if Overflows(cfg, Buffer(p), items[i]) {
        SoundSuccessor(cfg, p);
        SoundExtend(cfg, Successor(cfg, p), items[i]);
        SizeExtend(cfg, longest, Successor(cfg, p), items[i]);
        SentencesSized(cfg, longest, done + [p], Extend(Successor(cfg, p), items[i]), items, i + 1);
      } else {
        SoundExtend(cfg, p, items[i]);
        SizeExtend(cfg, longest, p, items[i]);
        SentencesSized(cfg, longest, done, Extend(p, items[i]), items, i + 1);
      }
    }
  }

  /** `longest` bounds every sentence of every over-long paragraph. */
  predicate BoundsSentences(cfg: ChunkConfig, longest: nat, paras: seq<Text>) {
    forall i, j :: 0 <= i < |paras| && |paras[i]| > cfg.maxChunkSize && 0 <= j < |Sentences(paras[i])| ==>
      |Sentences(paras[i])[j]| <= longest
  }

  lemma {:induction false} LongSized(cfg: ChunkConfig, longest: nat, done: seq<Part>, p: Part, paras: seq<Text>, i: nat)
    requires i < |paras| && |paras[i]| > cfg.maxChunkSize && BoundsSentences(cfg, longest, paras)
    requires AllSized(cfg, longest, done) && SizeOk(cfg, longest, p)
    ensures AllSized(cfg, longest, AfterLong(cfg, done, p, paras, i))
  {
    SentencesClean(paras[i]);
    SentencesSized(cfg, longest, [], Part(OfSentences(i), [], []), Sentences(paras[i]), 0);
  }

  lemma {:induction false} PlaceSized(cfg: ChunkConfig, longest: nat, done: seq<Part>, p: Part, paras: seq<Text>,
                                      i: nat)
    requires i < |paras| && CleanItems(paras) && BoundsSentences(cfg, longest, paras)
    requires AllSized(cfg, longest, done)
    requires Sound(cfg, p) && p.kind == OfParagraphs && SizeOk(cfg, longest, p)
    requires p.items == [] || !Overflows(cfg, Buffer(p), paras[i])
    ensures AllSized(cfg, longest, PlaceParagraph(cfg, done, p, paras, i))
    decreases |paras| - i, 0
  {
    hide LongParagraphParts, Overlap;
    if |paras[i]| > cfg.maxChunkSize {
      LongSized(cfg, longest, done, p, paras, i);
      ParagraphsSized(cfg, longest, AfterLong(cfg, done, p, paras, i), Part(OfParagraphs, [], []), paras, i + 1);
    } else {
      SoundExtend(cfg, p, paras[i]);
      SizeExtend(cfg, longest, p, paras[i]);
      ParagraphsSized(cfg, longest, done, Extend(p, paras[i]), paras, i + 1);
    }
  }

  lemma {:induction false} ParagraphsSized(cfg: ChunkConfig, longest: nat, done: seq<Part>, p: Part, paras: seq<Text>,
                                           i: nat)
    requires i <= |paras| && CleanItems(paras) && BoundsSentences(cfg, longest, paras)
    requires AllSized(cfg, longest, done)
    requires Sound(cfg, p) && p.kind == OfParagraphs && SizeOk(cfg, longest, p)
    ensures AllSized(cfg, longest, PackParagraphs(cfg, done, p, paras, i))
    decreases |paras| - i, 1
  {
    hide LongParagraphParts, Overlap;
    if i < |paras| {
      if Overflows(cfg, Buffer(p), paras[i]) {
        SoundSuccessor(cfg, p);
        if |done| + 1 < cfg.maxChunks {
          PlaceSized(cfg, longest, done + [p], Successor(cfg, p), paras, i);
        }
      } else {
        PlaceSized(cfg, longest, done, p, paras, i);
      }
    }
  }

  // --- What text the parts hold ---

  /** All fresh items of a list of parts, in order. */
  function FreshItems(parts: seq<Part>): seq<Text> {
    if parts == [] then [] else FreshItems(parts[..|parts| - 1]) + parts[|parts| - 1].items
  }

  function FreshInk(parts: seq<Part>): Text {
    Ink(Flatten(FreshItems(parts)))
  }

  lemma {:induction false} FreshAppend(done: seq<Part>, p: Part)
    ensures FreshItems(done + [p]) == FreshItems(done) + p.items
    ensures FreshInk(done + [p]) == FreshInk(done) + Ink(Flatten(p.items))
  {
    assert (done + [p])[..|done|] == done;
    FlattenConcat(FreshItems(done), p.items);
    InkConcat(Flatten(FreshItems(done)), Flatten(p.items));
  }

  lemma {:induction false} FreshItemsConcat(a: seq<Part>, b: seq<Part>)
    ensures FreshItems(a + b) == FreshItems(a) + FreshItems(b)
  {
    if b == [] {
      assert a + b == a;
    } else {
      var n := |b| - 1;
      assert (a + b)[..|a + b| - 1] == a + b[..n];
      FreshItemsConcat(a, b[..n]);
      Assoc(FreshItems(a), FreshItems(b[..n]), b[n].items);
    }
  }

  lemma {:induction false} FreshConcat(a: seq<Part>, b: seq<Part>)
    ensures FreshInk(a + b) == FreshInk(a) + FreshInk(b)
  {
    FreshItemsConcat(a, b);
    FlattenConcat(FreshItems(a), FreshItems(b));
    InkConcat(Flatten(FreshItems(a)), Flatten(FreshItems(b)));
  }

  lemma {:induction false} Shift<T>(a: seq<T>, b: seq<T>, items: seq<T>, i: nat)
    requires i < |items|
    ensures (a + b) + [items[i]] + items[i + 1..] == a + b + items[i..]
    ensures a + (b + [items[i]]) + items[i + 1..] == a + b + items[i..]
  {
  }

  /** The sentence packer drops nothing and repeats nothing. */
  lemma {:induction false} SentencesConserved(cfg: ChunkConfig, done: seq<Part>, p: Part, items: seq<Text>, i: nat)
    requires i <= |items| && CleanItems(items)
    requires Sound(cfg, p) && p.kind.OfSentences? && (p.items == [] ==> p.carried == [])
    ensures FreshItems(PackItems(cfg, done, p, items, i)) == FreshItems(done) + p.items + items[i..]
    decreases |items| - i
  {
    BufferOfSound(cfg, p);
    FreshAppend(done, p);
    if i < |items| {
      Shift(FreshItems(done), p.items, items, i);
      if Overflows(cfg, Buffer(p), items[i]) {
        SoundSuccessor(cfg, p);
        SoundExtend(cfg, Successor(cfg, p), items[i]);
        SentencesConserved(cfg, done + [p], Extend(Successor(cfg, p), items[i]), items, i + 1);
      } else {
        SoundExtend(cfg, p, items[i]);
        SentencesConserved(cfg, done, Extend(p, items[i]), items, i + 1);
      }
    }
  }

  lemma {:induction false} LongParagraphConserved(cfg: ChunkConfig, para: Text, n: nat)
    ensures FreshItems(LongParagraphParts(cfg, para, n)) == Sentences(para)
    ensures FreshInk(LongParagraphParts(cfg, para, n)) == Ink(para)
  {
    SentencesClean(para);
    SentencesConserved(cfg, [], Part(OfSentences(n), [], []), Sentences(para), 0);
    assert [] + [] + Sentences(para)[0..] == Sentences(para);
  }

  /** The ink of the first `n` items. */
  function InkUpTo(items: seq<Text>, n: nat): Text
    requires n <= |items|
  {
    if n == 0 then [] else InkUpTo(items, n - 1) + Ink(items[n - 1])
  }

  lemma {:induction false} InkUpToIs(items: seq<Text>, n: nat)
    requires n <= |items|
    ensures InkUpTo(items, n) == Ink(Flatten(items[..n]))
  {
    if n > 0 {
      InkUpToIs(items, n - 1);
      InkOfNext(items, n - 1);
    }
  }

  /** The fresh ink emitted is that of the first paragraphs; that of the others up to the `i`-th is in the
      buffer. */
  predicate Consumed(done: seq<Part>, p: Part, paras: seq<Text>, i: nat) {
    && |p.items| <= i <= |paras|
    && FreshInk(done) == InkUpTo(paras, i - |p.items|)
    && FreshInk(done) + Ink(Flatten(p.items)) == InkUpTo(paras, i)
  }

  lemma {:induction false} ConsumedEmit(done: seq<Part>, p: Part, paras: seq<Text>, i: nat)
    requires Consumed(done, p, paras, i)
    ensures FreshInk(done + [p]) == InkUpTo(paras, i)
  {
    FreshAppend(done, p);
  }

  lemma {:induction false} InkOfOneMore(items: seq<Text>, item: Text)
    ensures Ink(Flatten(items + [item])) == Ink(Flatten(items)) + Ink(item)
  {
    InkOfNext(items + [item], |items|);
    assert (items + [item])[..|items|] == items && (items + [item])[..|items| + 1] == items + [item];
  }

  lemma {:induction false} ConsumedExtend(done: seq<Part>, p: Part, paras: seq<Text>, i: nat)
    requires Consumed(done, p, paras, i) && i < |paras|
    ensures Consumed(done, Extend(p, paras[i]), paras, i + 1)
  {
    InkOfOneMore(p.items, paras[i]);
    Assoc(FreshInk(done), Ink(Flatten(p.items)), Ink(paras[i]));
  }

  lemma {:induction false} ConsumedFlush(cfg: ChunkConfig, done: seq<Part>, p: Part, paras: seq<Text>, i: nat)
    requires Consumed(done, p, paras, i) && Sound(cfg, p)
    ensures FreshInk(Flushed(done, p)) == InkUpTo(paras, i)
  {
    BufferOfSound(cfg, p);
    ConsumedEmit(done, p, paras, i);
  }

  lemma {:induction false} FreshAfterLong(cfg: ChunkConfig, done: seq<Part>, paras: seq<Text>, i: nat)
    requires i < |paras| && FreshInk(done) == InkUpTo(paras, i)
    ensures FreshInk(done + LongParagraphParts(cfg, paras[i], i)) == InkUpTo(paras, i + 1)
  {
    LongParagraphConserved(cfg, paras[i], i);
    FreshConcat(done, LongParagraphParts(cfg, paras[i], i));
  }

  lemma {:induction false} ConsumedWhole(done: seq<Part>, p: Part, paras: seq<Text>, i: nat)
    requires i <= |paras| && p.items == [] && FreshInk(done) == InkUpTo(paras, i)
    ensures Consumed(done, p, paras, i)
  {
  }

  lemma {:induction false} ConsumedLong(cfg: ChunkConfig, done: seq<Part>, p: Part, paras: seq<Text>, i: nat)
    requires Consumed(done, p, paras, i) && i < |paras| && Sound(cfg, p)
    ensures Consumed(AfterLong(cfg, done, p, paras, i), Part(OfParagraphs, [], []), paras, i + 1)
  {
    ConsumedFlush(cfg, done, p, paras, i);
    FreshAfterLong(cfg, Flushed(done, p), paras, i);
    ConsumedWhole(AfterLong(cfg, done, p, paras, i), Part(OfParagraphs, [], []), paras, i + 1);
  }

  /** The parts hold exactly the first `k` paragraphs, and all of them unless the cap is reached. */
  predicate HoldsFirst(cfg: ChunkConfig, parts: seq<Part>, paras: seq<Text>, k: nat) {
    && k <= |paras|
    && FreshInk(parts) == InkUpTo(paras, k)
    && (|parts| < cfg.maxChunks ==> k == |paras|)
  }

  /** What the packer knows when it comes to the `i`-th paragraph. */
  predicate Ready(cfg: ChunkConfig, done: seq<Part>, p: Part, paras: seq<Text>, i: nat) {
    CleanItems(paras) && Sound(cfg, p) && p.kind == OfParagraphs && Consumed(done, p, paras, i)
  }

  lemma {:induction false} ReadyExtend(cfg: ChunkConfig, done: seq<Part>, p: Part, paras: seq<Text>, i: nat)
    requires Ready(cfg, done, p, paras, i) && i < |paras|
    ensures Ready(cfg, done, Extend(p, paras[i]), paras, i + 1)
  {
    SoundExtend(cfg, p, paras[i]);
    ConsumedExtend(done, p, paras, i);
  }

  lemma {:induction false} ReadyLong(cfg: ChunkConfig, done: seq<Part>, p: Part, paras: seq<Text>, i: nat)
    requires Ready(cfg, done, p, paras, i) && i < |paras|
    ensures Ready(cfg, AfterLong(cfg, done, p, paras, i), Part(OfParagraphs, [], []), paras, i + 1)
  {
    assert Sound(cfg, Part(OfParagraphs, [], []));
    ConsumedLong(cfg, done, p, paras, i);
  }

  lemma {:induction false} ReadySuccessor(cfg: ChunkConfig, done: seq<Part>, p: Part, paras: seq<Text>, i: nat)
    requires Ready(cfg, done, p, paras, i) && Buffer(p) != []
    ensures Ready(cfg, done + [p], Successor(cfg, p), paras, i)
  {
    hide LongParagraphParts, Overlap;
    SoundSuccessor(cfg, p);
    ConsumedEmit(done, p, paras, i);
    ConsumedWhole(done + [p], Successor(cfg, p), paras, i);
  }

  lemma {:induction false} PlaceReady(cfg: ChunkConfig, done: seq<Part>, p: Part, paras: seq<Text>, i: nat)
    returns (done': seq<Part>, p': Part)
    requires i < |paras| && Ready(cfg, done, p, paras, i)
    ensures Ready(cfg, done', p', paras, i + 1)
    ensures PlaceParagraph(cfg, done, p, paras, i) == PackParagraphs(cfg, done', p', paras, i + 1)
  {
    if |paras[i]| > cfg.maxChunkSize {
      ReadyLong(cfg, done, p, paras, i);
      done', p' := AfterLong(cfg, done, p, paras, i), Part(OfParagraphs, [], []);
    } else {
      ReadyExtend(cfg, done, p, paras, i);
      done', p' := done, Extend(p, paras[i]);
    }
  }

  /** At the end, and where the cap stops the packer. */
  lemma {:induction false} ReadyEnd(cfg: ChunkConfig, done: seq<Part>, p: Part, paras: seq<Text>, i: nat)
    returns (k: nat)
    requires i <= |paras| && Ready(cfg, done, p, paras, i)
    requires i == |paras| || (Overflows(cfg, Buffer(p), paras[i]) && |done| + 1 >= cfg.maxChunks)
    ensures HoldsFirst(cfg, PackParagraphs(cfg, done, p, paras, i), paras, k)
  {
    hide LongParagraphParts, Overlap;
    BufferOfSound(cfg, p);
    ConsumedEmit(done, p, paras, i);
    k := if i < |paras| || (Buffer(p) != [] && |done| < cfg.maxChunks) then i else i - |p.items|;
  }

  /** One round of the packer's loop. */
  lemma {:induction false} ReadyRound(cfg: ChunkConfig, done: seq<Part>, p: Part, paras: seq<Text>, i: nat)
    returns (done': seq<Part>, p': Part)
    requires i < |paras| && Ready(cfg, done, p, paras, i)
    requires Overflows(cfg, Buffer(p), paras[i]) ==> |done| + 1 < cfg.maxChunks
    ensures Ready(cfg, done', p', paras, i + 1)
    ensures PackParagraphs(cfg, done, p, paras, i) == PackParagraphs(cfg, done', p', paras, i + 1)
  {
    hide LongParagraphParts, Overlap;
    if Overflows(cfg, Buffer(p), paras[i]) {
      ReadySuccessor(cfg, done, p, paras, i);
      done', p' := PlaceReady(cfg, done + [p], Successor(cfg, p), paras, i);
    } else {
      done', p' := PlaceReady(cfg, done, p, paras, i);
    }
  }

  lemma {:induction false} ParagraphsConserved(cfg: ChunkConfig, done: seq<Part>, p: Part, paras: seq<Text>, i: nat,
                                               parts: seq<Part>) returns (k: nat)
    requires i <= |paras| && Ready(cfg, done, p, paras, i) && parts == PackParagraphs(cfg, done, p, paras, i)
    ensures HoldsFirst(cfg, parts, paras, k)
    decreases |paras| - i
  {
    hide LongParagraphParts, Overlap;
    if i == |paras| || (Overflows(cfg, Buffer(p), paras[i]) && |done| + 1 >= cfg.maxChunks) {
      k := ReadyEnd(cfg, done, p, paras, i);
    } else {
      var done', p' := ReadyRound(cfg, done, p, paras, i);
      k := ParagraphsConserved(cfg, done', p', paras, i + 1, parts);
    }
  }

  // --- The cap on the number of chunks ---

  /** The cap in effect: even if it is zero, a chunk is emitted before it is looked at. */
  function Cap(cfg: ChunkConfig): nat {
    if cfg.maxChunks == 0 then 1 else cfg.maxChunks
  }

  /** The sentences of the over-long paragraphs from the `i`-th on, which the cap does not look at. */
  function LongCost(cfg: ChunkConfig, paras: seq<Text>, i: nat): nat
    requires i <= |paras|
    decreases |paras| - i
  {
    if i == |paras| then 0
    else (if |paras[i]| > cfg.maxChunkSize then |Sentences(paras[i])| else 0) + LongCost(cfg, paras, i + 1)
  }

  /** What the cap comes to: `spent` parts of sentences do not count, and `slack` is one if an overlap can
      be flushed before an over-long paragraph. */
  predicate Capped(cfg: ChunkConfig, paras: seq<Text>, i: nat, slack: nat)
    requires i <= |paras|
  {
    CleanItems(paras) && (slack > 0 || cfg.overlapSize == 0 || LongCost(cfg, paras, i) == 0)
  }

  lemma {:induction false} AfterLongCapped(cfg: ChunkConfig, done: seq<Part>, p: Part, paras: seq<Text>, i: nat,
                                           spent: nat, slack: nat)
    requires i < |paras| && Capped(cfg, paras, i, slack) && Sound(cfg, p) && |paras[i]| > cfg.maxChunkSize
    requires |done| < Cap(cfg) + spent + slack
    requires Buffer(p) == [] || (p.items == [] && |done| < cfg.maxChunks)
    ensures |AfterLong(cfg, done, p, paras, i)| < Cap(cfg) + spent + |Sentences(paras[i])| + slack
  {
    BufferOfSound(cfg, p);
    LongParagraphCount(cfg, paras[i], i);
    if Buffer(p) != [] {
      assert cfg.overlapSize > 0 && LongCost(cfg, paras, i) > 0;
    }
  }

  lemma {:induction false} PlaceCapped(cfg: ChunkConfig, done: seq<Part>, p: Part, paras: seq<Text>, i: nat,
                                       spent: nat, slack: nat)
    requires i < |paras| && Capped(cfg, paras, i, slack) && Sound(cfg, p)
    requires |done| < Cap(cfg) + spent + slack
    requires |paras[i]| <= cfg.maxChunkSize || Buffer(p) == [] || (p.items == [] && |done| < cfg.maxChunks)
    ensures |PlaceParagraph(cfg, done, p, paras, i)| <= Cap(cfg) + spent + LongCost(cfg, paras, i) + slack
    decreases |paras| - i, 0
  {
    hide LongParagraphParts, Overlap;
    if |paras[i]| > cfg.maxChunkSize {
      AfterLongCapped(cfg, done, p, paras, i, spent, slack);
      ParagraphsCapped(cfg, AfterLong(cfg, done, p, paras, i), Part(OfParagraphs, [], []), paras, i + 1,
                       spent + |Sentences(paras[i])|, slack);
    } else {
      SoundExtend(cfg, p, paras[i]);
      ParagraphsCapped(cfg, done, Extend(p, paras[i]), paras, i + 1, spent, slack);
    }
  }

  lemma {:induction false} ParagraphsCapped(cfg: ChunkConfig, done: seq<Part>, p: Part, paras: seq<Text>, i: nat,
                                            spent: nat, slack: nat)
    requires i <= |paras| && Capped(cfg, paras, i, slack) && Sound(cfg, p)
    requires |done| < Cap(cfg) + spent + slack
    ensures |PackParagraphs(cfg, done, p, paras, i)| <= Cap(cfg) + spent + LongCost(cfg, paras, i) + slack
    decreases |paras| - i, 1
  {
    hide LongParagraphParts, Overlap;
    if i < |paras| {
      if Overflows(cfg, Buffer(p), paras[i]) {
        SoundSuccessor(cfg, p);
        if |done| + 1 < cfg.maxChunks {
          PlaceCapped(cfg, done + [p], Successor(cfg, p), paras, i, spent, slack);
        }
      } else {
        PlaceCapped(cfg, done, p, paras, i, spent, slack);
      }
    }
  }
}
