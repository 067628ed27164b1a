/** The two documented limits, "max characters per chunk" and "hard limit on chunk count": the bounds
    that do hold, and exactly when the limits themselves do. */
module ChunkLimits {
  import opened Runes
  import opened Splitting
  import opened Packing
  import opened Chunking
  import opened ChunkInvariants
  import opened ChunkTheorems

  predicate AllFit(cfg: ChunkConfig, text: Text) {
    forall i :: 0 <= i < |Paragraphs(text)| ==> |Paragraphs(text)[i]| <= cfg.maxChunkSize
  }

  predicate WithinSizeLimit(cfg: ChunkConfig, text: Text) {
    forall k :: 0 <= k < |Chunks(cfg, text)| ==> |Chunks(cfg, text)[k].content| <= cfg.maxChunkSize
  }

  lemma {:induction false} PartSized(cfg: ChunkConfig, text: Text, longest: nat, k: nat)
    requires |text| > cfg.maxChunkSize && k < |TextParts(cfg, text)|
    requires BoundsSentences(cfg, longest, Paragraphs(text))
    ensures Emittable(cfg, TextParts(cfg, text)[k]) && SizeOk(cfg, longest, TextParts(cfg, text)[k])
    ensures k == 0 ==> TextParts(cfg, text)[k].carried == []
  {
    ParagraphsClean(text);
    TextPartsGood(cfg, text);
    ParagraphsSized(cfg, longest, [], Part(OfParagraphs, [], []), Paragraphs(text), 0);
  }

  lemma {:induction false} ContentShorter(cfg: ChunkConfig, text: Text, k: nat)
    requires |text| > cfg.maxChunkSize && k < |Chunks(cfg, text)|
    ensures k < |TextParts(cfg, text)|
    ensures |Chunks(cfg, text)[k].content| <= |Buffer(TextParts(cfg, text)[k])|
  {
    RenderAt(Content, TextParts(cfg, text), 0);
  }

  /** The size bound that does hold. `longest` is any bound on the sentences of the over-long
      paragraphs; if every paragraph fits it plays no part. */
  lemma {:induction false} SizeBound(cfg: ChunkConfig, text: Text, longest: nat, k: nat)
    requires |text| > cfg.maxChunkSize && k < |Chunks(cfg, text)|
    requires BoundsSentences(cfg, longest, Paragraphs(text))
    ensures |Chunks(cfg, text)[k].content| <=
      cfg.overlapSize + 2 + (if longest > cfg.maxChunkSize then longest else cfg.maxChunkSize)
    ensures AllFit(cfg, text) ==> |Chunks(cfg, text)[k].content| <= cfg.maxChunkSize + cfg.overlapSize + 2
    ensures AllFit(cfg, text) && cfg.overlapSize == 0 ==> |Chunks(cfg, text)[k].content| <= cfg.maxChunkSize + 1
  {
    ContentShorter(cfg, text, k);
    PartSized(cfg, text, longest, k);
    BufferOfSound(cfg, TextParts(cfg, text)[k]);
    if AllFit(cfg, text) {
      PartSized(cfg, text, 0, k);
    }
  }

  /** The count bound that does hold: the sentences of over-long paragraphs escape the cap, and so may one
      chunk of overlap; if every paragraph fits, the cap holds. */
  lemma {:induction false} CountBound(cfg: ChunkConfig, text: Text)
    ensures |Chunks(cfg, text)| <= Cap(cfg) + Excess(cfg, text)
    ensures AllFit(cfg, text) ==> |Chunks(cfg, text)| <= Cap(cfg)
  {
    var paras := Paragraphs(text);
    ParagraphsClean(text);
    ParagraphsCapped(cfg, [], Part(OfParagraphs, [], []), paras, 0, 0, Slack(cfg, paras));
    RenderAt(Content, TextParts(cfg, text), 0);
    if AllFit(cfg, text) {
      NoLongCost(cfg, paras, 0);
    }
  }

  function Slack(cfg: ChunkConfig, paras: seq<Text>): nat {
    if cfg.overlapSize > 0 && LongCost(cfg, paras, 0) > 0 then 1 else 0
  }

  function Excess(cfg: ChunkConfig, text: Text): nat {
    LongCost(cfg, Paragraphs(text), 0) + Slack(cfg, Paragraphs(text))
  }

  lemma {:induction false} NoLongCost(cfg: ChunkConfig, paras: seq<Text>, i: nat)
    requires i <= |paras| && forall j :: 0 <= j < |paras| ==> |paras[j]| <= cfg.maxChunkSize
    ensures LongCost(cfg, paras, i) == 0
    decreases |paras| - i
  {
    if i < |paras| {
      NoLongCost(cfg, paras, i + 1);
    }
  }

  // --- The size limit, exactly ---

  /** A configuration keeps every chunk of every text whose paragraphs all fit within MaxChunkSize
      exactly when that size is zero, or so small that no two paragraphs fit together and no overlap
      is ever carried. */
  lemma {:induction false} SizeLimitExactly(cfg: ChunkConfig)
    ensures (forall text :: AllFit(cfg, text) ==> WithinSizeLimit(cfg, text)) <==>
      cfg.maxChunkSize == 0 || (cfg.maxChunkSize <= 2 && (cfg.overlapSize == 0 || cfg.maxChunks <= 1))
  {
    if cfg.maxChunkSize == 0 || (cfg.maxChunkSize <= 2 && (cfg.overlapSize == 0 || cfg.maxChunks <= 1)) {
      forall text | AllFit(cfg, text)
        ensures WithinSizeLimit(cfg, text)
      {
        TinyChunksFit(cfg, text);
      }
    } else if cfg.maxChunkSize > 2 {
      var text;
      if cfg.maxChunks > 0 {
        text := JoinedPair(cfg);
      } else {
        text := JoinedTriple(cfg);
      }
      assert AllFit(cfg, text) && !WithinSizeLimit(cfg, text);
    } else {
      var text := OverlappedPair(cfg);
      assert AllFit(cfg, text) && !WithinSizeLimit(cfg, text);
    }
  }

  lemma {:induction false} NothingFits(cfg: ChunkConfig, text: Text)
    requires cfg.maxChunkSize == 0 && AllFit(cfg, text)
    ensures TextParts(cfg, text) == []
  {
    ParagraphsClean(text);
    assert |Paragraphs(text)| == 0;
  }

  lemma {:induction false} TinyChunksFit(cfg: ChunkConfig, text: Text)
    requires AllFit(cfg, text)
    requires cfg.maxChunkSize == 0 || (cfg.maxChunkSize <= 2 && (cfg.overlapSize == 0 || cfg.maxChunks <= 1))
    ensures WithinSizeLimit(cfg, text)
  {
    if |text| > cfg.maxChunkSize {
      CountBound(cfg, text);
      RenderAt(Content, TextParts(cfg, text), 0);
      ParagraphsClean(text);
      if cfg.maxChunkSize == 0 {
        NothingFits(cfg, text);
      } else {
        forall k | 0 <= k < |Chunks(cfg, text)|
          ensures |Chunks(cfg, text)[k].content| <= cfg.maxChunkSize
        {
          ContentShorter(cfg, text, k);
          PartSized(cfg, text, 0, k);
          BufferOfSound(cfg, TextParts(cfg, text)[k]);
          BufferLongEnough(cfg, TextParts(cfg, text)[k]);
        }
      }
    }
  }

  /** Two items and the separator between them take at least three characters, four for paragraphs. */
  lemma {:induction false} BufferLongEnough(cfg: ChunkConfig, p: Part)
    requires Sound(cfg, p)
    ensures |p.items| > 1 ==> |Buffer(p)| >= 2 + |Separator(p.kind)|
  {
    hide Trimmed;
    var n := |p.items| - 1;
    if n > 0 {
      var init := p.(items := p.items[..n]);
      BufferOfSound(cfg, init);
      assert p.items == init.items + [p.items[n]];
      SoundExtend(cfg, init, p.items[n]);
    }
  }

  /** A word of one repeated letter. */
  function Word(n: nat): (w: Text)
    ensures |w| == n && (forall i :: 0 <= i < n ==> w[i] == Other(0))
  {
    if n == 0 then [] else Word(n - 1) + [Other(0)]
  }

  lemma {:induction false} BufferOfOne(p: Part, a: Text)
    requires p.items == []
    ensures Extend(p, a) == p.(items := [a]) && Buffer(Extend(p, a)) == Append(p.carried, Separator(p.kind), a)
  {
    BufferExtend(p, a);
  }

  lemma {:induction false} BufferOfTwo(a: Text, b: Text)
    requires a != []
    ensures Buffer(Part(OfParagraphs, [], [a, b])) == a + BLANK_LINE + b
  {
    var p0 := Part(OfParagraphs, [], []);
    BufferOfOne(p0, a);
    BufferExtend(Extend(p0, a), b);
    assert Extend(Extend(p0, a), b) == Part(OfParagraphs, [], [a, b]);
  }

  /** Two paragraphs that the size check lets through become one part. */
  lemma {:induction false} JoinedParts(cfg: ChunkConfig, a: Text, b: Text)
    requires a != [] && |a| <= cfg.maxChunkSize && |b| <= cfg.maxChunkSize && cfg.maxChunks > 0
    requires !Overflows(cfg, a, b)
    ensures PackParagraphs(cfg, [], Part(OfParagraphs, [], []), [a, b], 0) == [Part(OfParagraphs, [], [a, b])]
  {
    var p0, ps := Part(OfParagraphs, [], []), [a, b];
    BufferOfOne(p0, a);
    BufferOfTwo(a, b);
    var p1, p2 := p0.(items := [a]), p0.(items := [a, b]);
    assert Extend(p1, b) == p2;
    assert PackParagraphs(cfg, [], p2, ps, 2) == [p2];
    assert PlaceParagraph(cfg, [], p1, ps, 1) == [p2];
    assert PlaceParagraph(cfg, [], p0, ps, 0) == [p2];
  }

  /** Two that it does not become two parts, the second opened by the overlap. */
  lemma {:induction false} OverlappedParts(cfg: ChunkConfig, a: Text, b: Text)
    requires a != [] && |a| <= cfg.maxChunkSize && 0 < |b| <= cfg.maxChunkSize && cfg.maxChunks > 1
    requires Overflows(cfg, a, b)
    ensures PackParagraphs(cfg, [], Part(OfParagraphs, [], []), [a, b], 0)
         == [Part(OfParagraphs, [], [a]), Part(OfParagraphs, Overlap(cfg.overlapSize, a), [b])]
  {
    var p0, ps := Part(OfParagraphs, [], []), [a, b];
    BufferOfOne(p0, a);
    var p1 := p0.(items := [a]);
    assert Buffer(p1) == a;
    var p2 := Successor(cfg, p1);
    assert p2 == Part(OfParagraphs, Overlap(cfg.overlapSize, a), []);
    BufferOfOne(p2, b);
    var p3 := p2.(items := [b]);
    assert PackParagraphs(cfg, [p1], p3, ps, 2) == [p1] + [p3];
    assert PlaceParagraph(cfg, [p1], p2, ps, 1) == [p1, p3];
    assert [] + [p1] == [p1];
    assert PackParagraphs(cfg, [], p1, ps, 1) == [p1, p3];
    assert PlaceParagraph(cfg, [], p0, ps, 0) == [p1, p3];
  }

  /** Two paragraphs that the size check lets through together are one character too long, because the
      check counts one character for a separator that takes two. */
  lemma {:induction false} JoinedPair(cfg: ChunkConfig) returns (text: Text)
    requires cfg.maxChunkSize > 2 && cfg.maxChunks > 0
    ensures AllFit(cfg, text) && !WithinSizeLimit(cfg, text)
  {
    hide Trim, Overlap;
    var a, b := Word(1), Word(cfg.maxChunkSize - 2);
    text := a + BLANK_LINE + b;
    TwoParagraphs(a, b);
    JoinedParts(cfg, a, b);
    BufferOfTwo(a, b);
    TrimmedPair(a, b);
    ChunkIs(cfg, text, 0);
  }

  lemma {:induction false} JoinedTripleParts(cfg: ChunkConfig, a: Text, b: Text)
    requires a != [] && |a| <= cfg.maxChunkSize && |b| <= cfg.maxChunkSize && cfg.maxChunks == 0
    requires !Overflows(cfg, a, b) && |a| + |b| >= cfg.maxChunkSize - 1
    ensures PackParagraphs(cfg, [], Part(OfParagraphs, [], []), [a, b, a], 0) == [Part(OfParagraphs, [], [a, b])]
  {
    var p0, ps := Part(OfParagraphs, [], []), [a, b, a];
    BufferOfOne(p0, a);
    BufferOfTwo(a, b);
    var p1, p2 := p0.(items := [a]), p0.(items := [a, b]);
    assert Extend(p1, b) == p2;
    assert PackParagraphs(cfg, [], p2, ps, 2) == [p2];
    assert PlaceParagraph(cfg, [], p1, ps, 1) == [p2];
    assert PlaceParagraph(cfg, [], p0, ps, 0) == [p2];
  }

  /** With a cap of zero a chunk comes out only if something overflows it. */
  lemma {:induction false} JoinedTriple(cfg: ChunkConfig) returns (text: Text)
    requires cfg.maxChunkSize > 2 && cfg.maxChunks == 0
    ensures AllFit(cfg, text) && !WithinSizeLimit(cfg, text)
  {
    hide Trim, Overlap;
    var a, b := Word(1), Word(cfg.maxChunkSize - 2);
    text := a + BLANK_LINE + (b + BLANK_LINE + a);
    LongInMiddleText(a, b);
    JoinedTripleParts(cfg, a, b);
    BufferOfTwo(a, b);
    TrimmedPair(a, b);
    ChunkIs(cfg, text, 0);
  }

  lemma {:induction false} TrimmedPair(a: Text, b: Text)
    requires a != [] && b != [] && !IsSpace(a[0]) && !IsSpace(b[|b| - 1])
    ensures Trimmed(a + BLANK_LINE + b) && |a + BLANK_LINE + b| == |a| + |b| + 2
  {
  }

  /** A chunk made of a trimmed buffer is that buffer. */
  lemma {:induction false} ChunkIs(cfg: ChunkConfig, text: Text, k: nat)
    requires |text| > cfg.maxChunkSize && k < |TextParts(cfg, text)|
    requires Trimmed(Buffer(TextParts(cfg, text)[k])) && |Buffer(TextParts(cfg, text)[k])| > cfg.maxChunkSize
    ensures !WithinSizeLimit(cfg, text)
  {
    ChunkAt(cfg, text, k);
    TrimOfTrimmed(Buffer(TextParts(cfg, text)[k]));
  }

  lemma {:induction false} OverlappedBuffer(cfg: ChunkConfig, a: Text, b: Text)
    requires a != [] && |a| <= cfg.overlapSize && |a| <= cfg.maxChunkSize && cfg.maxChunks > 1
    requires 0 < |b| <= cfg.maxChunkSize
    requires Overflows(cfg, a, b) && Paragraphs(a + BLANK_LINE + b) == [a, b]
    ensures var parts := TextParts(cfg, a + BLANK_LINE + b); |parts| == 2 && Buffer(parts[1]) == a + BLANK_LINE + b
  {
    OverlappedParts(cfg, a, b);
    assert Overlap(cfg.overlapSize, a) == a;
    BufferOfOne(Part(OfParagraphs, a, []), b);
  }

  /** A paragraph that just fits no longer does once an overlap is put in front of it. */
  lemma {:induction false} OverlappedPair(cfg: ChunkConfig) returns (text: Text)
    requires cfg.maxChunkSize > 0 && cfg.overlapSize > 0 && cfg.maxChunks > 1
    ensures AllFit(cfg, text) && !WithinSizeLimit(cfg, text)
  {
    hide Trim, Overlap;
    var a, b := Word(1), Word(cfg.maxChunkSize);
    text := a + BLANK_LINE + b;
    TwoParagraphs(a, b);
    OverlappedBuffer(cfg, a, b);
    TrimmedPair(a, b);
    ChunkIs(cfg, text, 1);
  }

  // --- Overlap where an over-long paragraph begins and ends ---

  lemma {:induction false} LongInMiddleParts(cfg: ChunkConfig, a: Text, b: Text)
    requires a != [] && |a| <= cfg.maxChunkSize && |a| <= cfg.overlapSize && cfg.maxChunks > 3
    requires |b| > cfg.maxChunkSize && Sentences(b) == [b]
    ensures PackParagraphs(cfg, [], Part(OfParagraphs, [], []), [a, b, a], 0) == LongInMiddlePartsOf(a, b)
  {
    var ps, p0 := [a, b, a], Part(OfParagraphs, [], []);
    BufferOfOne(p0, a);
    var p1, p2 := p0.(items := [a]), Part(OfParagraphs, a, []);
    assert Buffer(p1) == a && Buffer(p2) == a;
    assert Successor(cfg, p1) == p2;
    OneSentenceParts(cfg, b, 1);
    var long := [Part(OfSentences(1), [], [b])];
    assert AfterLong(cfg, [p1], p2, ps, 1) == [p1, p2] + long;
    assert PackParagraphs(cfg, [p1, p2] + long, p1, ps, 3) == [p1, p2] + long + [p1];
    assert PlaceParagraph(cfg, [p1, p2] + long, p0, ps, 2) == [p1, p2] + long + [p1];
    assert PackParagraphs(cfg, [p1, p2] + long, p0, ps, 2) == [p1, p2] + long + [p1];
    assert PlaceParagraph(cfg, [p1], p2, ps, 1) == [p1, p2] + long + [p1];
    assert [] + [p1] == [p1];
    assert PackParagraphs(cfg, [], p1, ps, 1) == [p1, p2] + long + [p1];
    assert PlaceParagraph(cfg, [], p0, ps, 0) == [p1, p2] + long + [p1];
  }

  lemma {:induction false} OneSentenceParts(cfg: ChunkConfig, b: Text, n: nat)
    requires b != [] && Sentences(b) == [b]
    ensures LongParagraphParts(cfg, b, n) == [Part(OfSentences(n), [], [b])]
  {
    var s0 := Part(OfSentences(n), [], []);
    BufferOfOne(s0, b);
    var s1 := s0.(items := [b]);
    assert Buffer(s1) == b;
    assert PackItems(cfg, [], s1, [b], 1) == [s1];
  }

  /** A text in which a chunk is nothing but overlap, and no overlap leads into or out of the over-long
      paragraph: a letter, a word that is too long, and a letter again come out as the letter, the letter
      once more, the word, and the letter. */
  lemma {:induction false} LongInMiddle(cfg: ChunkConfig) returns (text: Text)
    requires cfg.maxChunkSize > 0 && cfg.overlapSize > 0 && cfg.maxChunks > 3
    ensures var a, b := Word(1), Word(cfg.maxChunkSize + 1);
      && text == a + BLANK_LINE + (b + BLANK_LINE + a)
      && TextParts(cfg, text) == LongInMiddlePartsOf(a, b)
      && Chunks(cfg, text) == [Chunk(0, a), Chunk(1, a), Chunk(2, b), Chunk(3, a)]
  {
    hide Trim, Overlap;
    var a, b := Word(1), Word(cfg.maxChunkSize + 1);
    text := a + BLANK_LINE + (b + BLANK_LINE + a);
    LongInMiddleText(a, b);
    UnsplitIsOneSentence(b);
    LongInMiddleParts(cfg, a, b);
    LongInMiddleChunks(a, b);
  }

  function LongInMiddlePartsOf(a: Text, b: Text): seq<Part> {
    [Part(OfParagraphs, [], [a]), Part(OfParagraphs, a, []), Part(OfSentences(1), [], [b]), Part(OfParagraphs, [], [a])]
  }

  lemma {:induction false} LongInMiddleText(a: Text, b: Text)
    requires CleanItems([a, b])
    requires forall i :: 0 <= i < |a| ==> !a[i].Newline?
    requires forall i :: 0 <= i < |b| ==> !b[i].Newline?
    ensures Paragraphs(a + BLANK_LINE + (b + BLANK_LINE + a)) == [a, b, a]
  {
    assert [a, b][0] == a && [a, b][1] == b;
    TwoParagraphs(b, a);
    FirstParagraph(a, b + BLANK_LINE + a);
    assert [a] + [b, a] == [a, b, a];
  }

  lemma {:induction false} LongInMiddleChunks(a: Text, b: Text)
    requires a != [] && b != [] && Trimmed(a) && Trimmed(b)
    ensures Render(Content, LongInMiddlePartsOf(a, b), 0) == [Chunk(0, a), Chunk(1, a), Chunk(2, b), Chunk(3, a)]
  {
    hide Trim;
    var parts := LongInMiddlePartsOf(a, b);
    RenderAt(Content, parts, 0);
    OneItemContent(OfParagraphs, a);
    OneItemContent(OfSentences(1), b);
    TrimOfTrimmed(a);
    assert Content(parts[0]) == a && Content(parts[1]) == a && Content(parts[2]) == b && Content(parts[3]) == a;
  }

  lemma {:induction false} OneItemContent(kind: Kind, a: Text)
    requires a != [] && Trimmed(a)
    ensures Content(Part(kind, [], [a])) == a
  {
    BufferOfOne(Part(kind, [], []), a);
    assert Buffer(Part(kind, [], [a])) == a;
    TrimOfTrimmed(a);
  }

  // --- Without the condition on paragraphs, neither limit is ever guaranteed ---

  /** Whatever the configuration, some text has a chunk larger than MaxChunkSize: a word that is too
      long is never cut. */
  lemma {:induction false} SizeLimitNeverGuaranteed(cfg: ChunkConfig)
    ensures exists text :: !WithinSizeLimit(cfg, text)
  {
    var text := Word(cfg.maxChunkSize + 1);
    SingleLongParagraph(cfg, text);
    var s0 := Part(OfSentences(0), [], []);
    UnsplitIsOneSentence(text);
    BufferExtend(s0, text);
    var s1 := Extend(s0, text);
    assert Buffer(s1) == text;
    assert PackItems(cfg, [], s1, [text], 1) == [s1];
    assert TextParts(cfg, text) == [s1];
    RenderAt(Content, [s1], 0);
    TrimOfTrimmed(text);
    assert |Chunks(cfg, text)[0].content| == cfg.maxChunkSize + 1;
    assert !WithinSizeLimit(cfg, text);
  }

  lemma {:induction false} SingleLongParagraph(cfg: ChunkConfig, text: Text)
    requires Trimmed(text) && |text| > cfg.maxChunkSize && NoBreak(text, |text|)
    ensures TextParts(cfg, text) == LongParagraphParts(cfg, text, 0)
  {
    UnbrokenIsOneParagraph(text);
    var parts, p0 := LongParagraphParts(cfg, text, 0), Part(OfParagraphs, [], []);
    assert [] + parts == parts;
    assert PackParagraphs(cfg, parts, p0, [text], 1) == parts;
    assert PackParagraphs(cfg, [], p0, [text], 0) == PlaceParagraph(cfg, [], p0, [text], 0) == parts;
  }

  /** Sentences that each fill a chunk are packed one to a chunk. */
  lemma {:induction false} OneEach(cfg: ChunkConfig, done: seq<Part>, p: Part, items: seq<Text>, i: nat)
    requires i <= |items| && forall j :: 0 <= j < |items| ==> items[j] != [] && |items[j]| >= cfg.maxChunkSize
    ensures |PackItems(cfg, done, p, items, i)| == |done| + (if Buffer(p) == [] then 0 else 1) + |items| - i
    decreases |items| - i
  {
    if i < |items| {
      if Overflows(cfg, Buffer(p), items[i]) {
        BufferExtend(Successor(cfg, p), items[i]);
        OneEach(cfg, done + [p], Extend(Successor(cfg, p), items[i]), items, i + 1);
      } else {
        BufferExtend(p, items[i]);
        OneEach(cfg, done, Extend(p, items[i]), items, i + 1);
      }
    }
  }

  /** `n` copies of a sentence of `size + 1` characters, each behind a space. */
  function Sentenceful(size: nat, n: nat): Text {
    if n == 0 then [] else [Space] + (Word(size) + [Dot]) + Sentenceful(size, n - 1)
  }

  lemma {:induction false} SentencefulShape(size: nat, n: nat)
    ensures var t := Sentenceful(size, n);
      && (t != [] ==> t[0] == Space && t[|t| - 1] == Dot)
      && (forall i :: 0 <= i < |t| ==> !t[i].Newline?)
      && |t| == n * (size + 2)
  {
    if n > 0 {
      SentencefulShape(size, n - 1);
      assert n * (size + 2) == (n - 1) * (size + 2) + (size + 2);
    }
  }

  function Copies(s: Text, n: nat): (ss: seq<Text>)
    ensures |ss| == n && forall i :: 0 <= i < n ==> ss[i] == s
  {
    if n == 0 then [] else [s] + Copies(s, n - 1)
  }

  lemma {:induction false} SentencefulSentences(size: nat, n: nat)
    ensures Sentences(Sentenceful(size, n)) == Copies(Word(size) + [Dot], n)
  {
    hide Trim;
    if n > 0 {
      SentencefulSentences(size, n - 1);
      SentencefulShape(size, n - 1);
      TrimLead([Space], Word(size) + [Dot]);
      FirstSentence([Space] + (Word(size) + [Dot]), Sentenceful(size, n - 1), Word(size) + [Dot]);
    }
  }

  /** A text up to its first full stop, in front of a space or the end. */
  predicate FirstPiece(piece: Text, later: Text) {
    && piece != [] && piece[|piece| - 1] == Dot && (later == [] || later[0] == Space)
    && forall i :: 0 <= i < |piece| - 1 ==> !IsTerminator(piece[i])
  }

  lemma {:induction false} FirstSentence(piece: Text, later: Text, s: Text)
    requires FirstPiece(piece, later) && Trim(piece) == s && s != []
    ensures Sentences(piece + later) == [s] + Sentences(later)
  {
    var t := piece + later;
    var k := |piece| - 1;
    assert forall i :: 0 <= i < k ==> !IsTerminator(t[i]);
    assert t[..k + 1] == piece && t[k + 1..] == later;
    PiecesAt(t, k);
    assert ([piece] + Pieces(later))[1..] == Pieces(later);
  }

  lemma {:induction false} TrimLead(lead: Text, s: Text)
    requires s != [] && Trimmed(s) && (lead == [] || lead == [Space])
    ensures Trim(lead + s) == s
  {
    var t := lead + s;
    assert SkipSpaces(t, |lead|) == |lead|;
    assert SkipSpaces(t, 0) == |lead|;
    assert BackOverSpaces(t, |lead|, |t|) == |t|;
  }

  lemma {:induction false} LineOfTwo(s: Text, later: Text)
    requires s != [] && !IsSpace(s[0])
    requires var last := if later == [] then s else later; !IsSpace(last[|last| - 1])
    requires (forall i :: 0 <= i < |s| ==> !s[i].Newline?) && (forall i :: 0 <= i < |later| ==> !later[i].Newline?)
    ensures Trimmed(s + later) && NoBreak(s + later, |s + later|)
  {
    assert forall i :: 0 <= i < |s + later| ==> !(s + later)[i].Newline?;
  }

  lemma {:induction false} ManyOnOneLine(size: nat, n: nat)
    ensures var text := Word(size) + [Dot] + Sentenceful(size, n); Trimmed(text) && NoBreak(text, |text|)
  {
    SentencefulShape(size, n);
    LineOfTwo(Word(size) + [Dot], Sentenceful(size, n));
  }

  lemma {:induction false} ManySplit(size: nat, n: nat)
    ensures var s := Word(size) + [Dot]; Sentences(s + Sentenceful(size, n)) == [s] + Sentences(Sentenceful(size, n))
  {
    var s := Word(size) + [Dot];
    SentencefulShape(size, n);
    TrimOfTrimmed(s);
    FirstSentence(s, Sentenceful(size, n), s);
  }

  /** A line of `n + 1` sentences of `size + 1` characters each. */
  lemma {:induction false} ManySentences(size: nat, n: nat) returns (text: Text)
    ensures Trimmed(text) && |text| > size && NoBreak(text, |text|)
    ensures Sentences(text) == Copies(Word(size) + [Dot], n + 1)
  {
    text := Word(size) + [Dot] + Sentenceful(size, n);
    ManyOnOneLine(size, n);
    ManySplit(size, n);
    SentencefulSentences(size, n);
  }

  lemma {:induction false} PackedOneEach(cfg: ChunkConfig, items: seq<Text>)
    requires forall j :: 0 <= j < |items| ==> |items[j]| > cfg.maxChunkSize
    ensures |PackItems(cfg, [], Part(OfSentences(0), [], []), items, 0)| == |items|
  {
    OneEach(cfg, [], Part(OfSentences(0), [], []), items, 0);
  }

  /** Whatever the configuration, some text has more than MaxChunks chunks: the sentences of an
      over-long paragraph are not counted against the cap. */
  lemma {:induction false} CountLimitNeverGuaranteed(cfg: ChunkConfig)
    ensures exists text :: |Chunks(cfg, text)| > cfg.maxChunks
  {
    var text := ManySentences(cfg.maxChunkSize, cfg.maxChunks);
    SingleLongParagraph(cfg, text);
    PackedOneEach(cfg, Sentences(text));
    RenderAt(Content, TextParts(cfg, text), 0);
    assert |Chunks(cfg, text)| > cfg.maxChunks;
  }
}
