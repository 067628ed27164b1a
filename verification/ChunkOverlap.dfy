/** Which texts have an overlap between all their chunks. */
module ChunkOverlap {
  import opened Runes
  import opened Splitting
  import opened Packing
  import opened Chunking
  import opened ChunkInvariants
  import opened ChunkTheorems
  import opened ChunkOrigin
  import opened ChunkLimits
  import opened ChunkCap

  predicate AllOfParagraphs(parts: seq<Part>) {
    forall k :: 0 <= k < |parts| ==> parts[k].kind == OfParagraphs
  }

  /** If every paragraph fits, no part is made of sentences. */
  lemma {:induction false} NoSentences(cfg: ChunkConfig, text: Text)
    requires AllFit(cfg, text)
    ensures AllOfParagraphs(TextParts(cfg, text))
  {
    forall k | 0 <= k < |TextParts(cfg, text)|
      ensures TextParts(cfg, text)[k].kind == OfParagraphs
    {
      if TextParts(cfg, text)[k].kind.OfSentences? {
        var n := TextParts(cfg, text)[k].kind.paragraph;
        var at, long := LabelsAreTrue(cfg, text, n);
        assert false;
      }
    }
  }

  /** If every paragraph fits, every chunk but the first opens with an overlap, if there is one at all. */
  lemma {:induction false} OverlapIfAllFit(cfg: ChunkConfig, text: Text, k: nat)
    requires AllFit(cfg, text) && 0 < k < |TextParts(cfg, text)|
    ensures Together(cfg, text, k)
    ensures TextParts(cfg, text)[k].carried != [] <==> cfg.overlapSize > 0
  {
    NoSentences(cfg, text);
    OverlapExactly(cfg, text, k);
  }

  predicate AllCarry(parts: seq<Part>) {
    forall k :: 0 < k < |parts| ==> parts[k].carried != []
  }

  /** If all parts carry an overlap, they are all of one kind. */
  lemma {:induction false} SameKind(cfg: ChunkConfig, parts: seq<Part>, a: nat, b: nat)
    requires GoodRun(cfg, parts) && AllCarry(parts) && a <= b < |parts|
    ensures parts[a].kind == parts[b].kind
    decreases b
  {
    if a < b {
      SameKind(cfg, parts, a, b - 1);
      assert Follows(cfg, parts[b - 1], parts[b]);
    }
  }

  /** Parts that are all of the `n`-th paragraph hold no other ink. */
  lemma {:induction false} OnlyOne(cfg: ChunkConfig, parts: seq<Part>, n: nat, at: nat, long: seq<Part>)
    requires GoodRun(cfg, parts) && AllCarry(parts)
    requires Labelled(parts, n, at, long) && AllSentences(long, n) && long != []
    ensures parts == long
  {
    assert parts[at] == long[0];
    forall k | 0 <= k < |parts|
      ensures parts[k].kind == OfSentences(n)
    {
      SameKind(cfg, parts, if k < at then k else at, if k < at then at else k);
    }
    assert parts[0].kind == OfSentences(n) && parts[|parts| - 1].kind == OfSentences(n);
  }

  lemma {:induction false} MoreInk(items: seq<Text>, n: nat)
    requires CleanItems(items) && n < |items| && |items| > 1
    ensures |Ink(Flatten(items))| > |Ink(items[n])|
  {
    var a, b := items[..n], items[n + 1..];
    assert items == items[..n + 1] + b;
    InkOfNext(items, n);
    FlattenConcat(items[..n + 1], b);
    InkConcat(Flatten(items[..n + 1]), Flatten(b));
    if a != [] {
      CleanInk(a);
    } else {
      CleanInk(b);
    }
  }

  /** An over-long paragraph among others breaks the overlap somewhere. */
  lemma {:induction false} LongBreaks(cfg: ChunkConfig, text: Text, n: nat)
    requires |text| > cfg.maxChunkSize && |Paragraphs(text)| > 1
    requires n < |Paragraphs(text)| && |Paragraphs(text)[n]| > cfg.maxChunkSize
    ensures !AllCarry(AllParts(cfg, text))
  {
    var big, all, para := Uncapped(cfg, text), AllParts(cfg, text), Paragraphs(text)[n];
    NeverReached(cfg, text);
    var at, long := LabelsAreTrue(big, text, n);
    TextPartsGood(big, text);
    LongParagraphGood(big, para, n);
    if AllCarry(all) {
      OnlyOne(big, all, n, at, long);
      LongParagraphConserved(big, para, n);
      AllInk(cfg, text);
      ParagraphsClean(text);
      MoreInk(Paragraphs(text), n);
      assert false;
    }
  }

  /** A single paragraph gives parts of one kind. */
  lemma {:induction false} SingleKind(cfg: ChunkConfig, text: Text, k: nat)
    requires |Paragraphs(text)| == 1 && 0 < k < |AllParts(cfg, text)|
    ensures Together(Uncapped(cfg, text), text, k)
  {
    var big, all := Uncapped(cfg, text), AllParts(cfg, text);
    if AllFit(big, text) {
      OverlapIfAllFit(big, text, k);
    } else {
      ParagraphsClean(text);
      assert Paragraphs(text)[0] != [] && |Paragraphs(text)[0]| > big.maxChunkSize;
      SingleLong(big, Paragraphs(text));
      LongParagraphGood(big, Paragraphs(text)[0], 0);
    }
  }

  lemma {:induction false} SingleLong(cfg: ChunkConfig, paras: seq<Text>)
    requires |paras| == 1 && |paras[0]| > cfg.maxChunkSize
    ensures PackParagraphs(cfg, [], Part(OfParagraphs, [], []), paras, 0) == LongParagraphParts(cfg, paras[0], 0)
  {
    var parts, p0 := LongParagraphParts(cfg, paras[0], 0), Part(OfParagraphs, [], []);
    assert AfterLong(cfg, [], p0, paras, 0) == parts;
    assert PackParagraphs(cfg, parts, p0, paras, 1) == parts;
    assert PlaceParagraph(cfg, [], p0, paras, 0) == parts;
  }

  /** "Overlap between consecutive chunks", exactly: without a cap, and with an overlap configured, every
      chunk of a text but the first opens with an overlap if and only if every paragraph fits, or there is
      at most one. */
  lemma {:induction false} OverlapEverywhereExactly(cfg: ChunkConfig, text: Text)
    requires cfg.overlapSize > 0 && |text| > cfg.maxChunkSize
    ensures AllCarry(AllParts(cfg, text)) <==> AllFit(cfg, text) || |Paragraphs(text)| <= 1
  {
    var big, all := Uncapped(cfg, text), AllParts(cfg, text);
    if AllFit(cfg, text) || |Paragraphs(text)| <= 1 {
      forall k | 0 < k < |all|
        ensures all[k].carried != []
      {
        if AllFit(cfg, text) {
          assert AllFit(big, text);
          OverlapIfAllFit(big, text, k);
        } else {
          SingleKind(cfg, text, k);
          OverlapExactly(big, text, k);
        }
      }
    } else {
      var n :| 0 <= n < |Paragraphs(text)| && |Paragraphs(text)[n]| > cfg.maxChunkSize;
      LongBreaks(cfg, text, n);
    }
  }
}
