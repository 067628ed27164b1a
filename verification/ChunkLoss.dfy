/** Which configurations never lose text. */
module ChunkLoss {
  import opened Runes
  import opened Splitting
  import opened Packing
  import opened Chunking
  import opened ChunkInvariants
  import opened ChunkTheorems
  import opened ChunkGreedy
  import opened ChunkLimits
  import opened ChunkCap
  import opened ChunkOverlap
  import opened Optimality

  predicate NoneRegular(parts: seq<Part>) {
    forall k {:trigger Regular(parts[k])} :: 0 <= k < |parts| ==> !Regular(parts[k])
  }

  /** If nothing fits, everything is packed by sentences, and the cap is never looked at. */
  lemma {:induction false} OnlySentences(cfg: ChunkConfig, done: seq<Part>, p: Part, paras: seq<Text>, i: nat,
                                         parts: seq<Part>)
    requires cfg.maxChunkSize == 0 && CleanItems(paras) && i <= |paras| && NoneRegular(done) && Buffer(p) == []
    requires parts == PackParagraphs(cfg, done, p, paras, i)
    ensures NoneRegular(parts)
    decreases |paras| - i
  {
    hide LongParagraphParts, Overlap;
    if i < |paras| {
      var done', p' := LongRound(cfg, done, p, paras, i);
      OnlySentences(cfg, done', p', paras, i + 1, parts);
    }
  }

  lemma {:induction false} LongRound(cfg: ChunkConfig, done: seq<Part>, p: Part, paras: seq<Text>, i: nat)
    returns (done': seq<Part>, p': Part)
    requires cfg.maxChunkSize == 0 && CleanItems(paras) && i < |paras| && NoneRegular(done) && Buffer(p) == []
    ensures NoneRegular(done') && Buffer(p') == []
    ensures PackParagraphs(cfg, done, p, paras, i) == PackParagraphs(cfg, done', p', paras, i + 1)
  {
    hide LongParagraphParts, Overlap;
    assert paras[i] != [];
    LongNoneRegular(cfg, done, p, paras, i);
    done', p' := AfterLong(cfg, done, p, paras, i), Part(OfParagraphs, [], []);
  }

  lemma {:induction false} LongNoneRegular(cfg: ChunkConfig, done: seq<Part>, p: Part, paras: seq<Text>, i: nat)
    requires CleanItems(paras) && i < |paras| && NoneRegular(done) && Buffer(p) == []
    ensures NoneRegular(AfterLong(cfg, done, p, paras, i))
  {
    LongIsNotRegular(cfg, done, p, paras, i);
    AfterLongLength(cfg, done, p, paras, i);
    StillNoneRegular(done, AfterLong(cfg, done, p, paras, i));
  }

  lemma {:induction false} StillNoneRegular(done: seq<Part>, done': seq<Part>)
    requires NoneRegular(done) && done <= done' && forall j :: |done| <= j < |done'| ==> !Regular(done'[j])
    ensures NoneRegular(done')
  {
    forall k | 0 <= k < |done'|
      ensures !Regular(done'[k])
    {
      assert k < |done| ==> done'[k] == done[k];
    }
  }

  lemma {:induction false} NothingIsLost(cfg: ChunkConfig, text: Text)
    requires cfg.maxChunkSize == 0 && text != []
    ensures FreshInk(TextParts(cfg, text)) == Ink(text)
  {
    ParagraphsClean(text);
    OnlySentences(Uncapped(cfg, text), [], Part(OfParagraphs, [], []), Paragraphs(text), 0, AllParts(cfg, text));
    CapLosesTextExactly(cfg, text);
  }

  /** `n` words of `size` characters, each a paragraph of its own. */
  function Rows(size: nat, n: nat): Text {
    if n == 0 then [] else Word(size) + BLANK_LINE + Rows(size, n - 1)
  }

  lemma {:induction false} RowsParagraphs(size: nat, n: nat)
    requires size > 0
    ensures Paragraphs(Rows(size, n)) == Copies(Word(size), n) && |Rows(size, n)| == n * (size + 2)
  {
    if n > 0 {
      RowsParagraphs(size, n - 1);
      FirstParagraph(Word(size), Rows(size, n - 1));
      assert n * (size + 2) == (n - 1) * (size + 2) + (size + 2);
    } else {
      assert Split([]) == [[]] && KeptOne([]) == [];
    }
  }

  /** More paragraphs than the cap allows, each of which fills a chunk. */
  lemma {:induction false} TooManyRows(cfg: ChunkConfig) returns (text: Text)
    requires cfg.maxChunkSize > 0
    ensures |text| > cfg.maxChunkSize && AllFit(cfg, text) && |AllParts(cfg, text)| == cfg.maxChunks + 2
  {
    var n := cfg.maxChunks + 2;
    text := Rows(cfg.maxChunkSize, n);
    RowsParagraphs(cfg.maxChunkSize, n);
    assert n * (cfg.maxChunkSize + 2) >= 2 * (cfg.maxChunkSize + 2);
    FittingParts(cfg, text);
    OneEach(Uncapped(cfg, text), [], Part(OfParagraphs, [], []), Copies(Word(cfg.maxChunkSize), n), 0);
  }

  lemma {:induction false} FittingIsRegular(cfg: ChunkConfig, text: Text, k: nat)
    requires AllFit(cfg, text) && k < |TextParts(cfg, text)|
    ensures Regular(TextParts(cfg, text)[k])
  {
    NoSentences(cfg, text);
    OverlapOnly(cfg, text, k);
  }

  lemma {:induction false} SomethingIsLost(cfg: ChunkConfig) returns (text: Text)
    requires cfg.maxChunkSize > 0
    ensures |text| > cfg.maxChunkSize && FreshInk(TextParts(cfg, text)) != Ink(text)
  {
    text := TooManyRows(cfg);
    assert AllFit(Uncapped(cfg, text), text);
    FittingIsRegular(Uncapped(cfg, text), text, cfg.maxChunks);
    CapLosesTextExactly(cfg, text);
    assert CutsAt(cfg.maxChunks, AllParts(cfg, text), cfg.maxChunks);
  }

  /** A configuration keeps all ink of all texts that are split at all exactly when MaxChunkSize is zero. */
  lemma {:induction false} TextKeptExactly(cfg: ChunkConfig)
    ensures (forall text :: |text| > cfg.maxChunkSize ==> FreshInk(TextParts(cfg, text)) == Ink(text)) <==>
      cfg.maxChunkSize == 0
  {
    if cfg.maxChunkSize == 0 {
      forall text | |text| > cfg.maxChunkSize
        ensures FreshInk(TextParts(cfg, text)) == Ink(text)
      {
        NothingIsLost(cfg, text);
      }
    } else {
      var text := SomethingIsLost(cfg);
      assert FreshInk(TextParts(cfg, text)) != Ink(text);
    }
  }
}
