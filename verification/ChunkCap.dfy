/** What the cap on the number of chunks does to a text, exactly. */
module ChunkCap {
  import opened Runes
  import opened Splitting
  import opened Packing
  import opened Chunking
  import opened ChunkInvariants
  import opened ChunkTheorems
  import opened ChunkGreedy

  // --- A cap that is never reached ---

  /** More chunks than the text can give, whatever the cap. */
  function Ample(cfg: ChunkConfig, paras: seq<Text>): nat {
    2 * |paras| + LongCost(cfg.(maxChunks := 0), paras, 0) + 2
  }

  function Uncapped(cfg: ChunkConfig, text: Text): ChunkConfig {
    cfg.(maxChunks := Ample(cfg, Paragraphs(text)))
  }

  /** The parts of a text without a cap. */
  function AllParts(cfg: ChunkConfig, text: Text): seq<Part> {
    TextParts(Uncapped(cfg, text), text)
  }

  lemma {:induction false} CostWithoutCap(cfg: ChunkConfig, paras: seq<Text>, i: nat)
    requires i <= |paras|
    ensures LongCost(cfg, paras, i) == LongCost(cfg.(maxChunks := 0), paras, i)
    decreases |paras| - i
  {
    if i < |paras| {
      CostWithoutCap(cfg, paras, i + 1);
    }
  }

  lemma {:induction false} AfterLongLength(cfg: ChunkConfig, done: seq<Part>, p: Part, paras: seq<Text>, i: nat)
    requires i < |paras| && CleanItems(paras)
    ensures |done| < |AfterLong(cfg, done, p, paras, i)| <= |done| + 1 + |Sentences(paras[i])|
    ensures done <= AfterLong(cfg, done, p, paras, i)
  {
    LongParagraphCount(cfg, paras[i], i);
  }

  lemma {:induction false} PlaceLength(cfg: ChunkConfig, done: seq<Part>, p: Part, paras: seq<Text>, i: nat)
    requires i < |paras| && CleanItems(paras)
    ensures |PlaceParagraph(cfg, done, p, paras, i)| <= |done| + 2 * (|paras| - i) + LongCost(cfg, paras, i)
    decreases |paras| - i, 0
  {
    hide LongParagraphParts, Overlap;
    if |paras[i]| > cfg.maxChunkSize {
      AfterLongLength(cfg, done, p, paras, i);
      ParagraphsLength(cfg, AfterLong(cfg, done, p, paras, i), Part(OfParagraphs, [], []), paras, i + 1);
    } else {
      ParagraphsLength(cfg, done, Extend(p, paras[i]), paras, i + 1);
    }
  }

  lemma {:induction false} ParagraphsLength(cfg: ChunkConfig, done: seq<Part>, p: Part, paras: seq<Text>, i: nat)
    requires i <= |paras| && CleanItems(paras)
    ensures |PackParagraphs(cfg, done, p, paras, i)| <= |done| + 1 + 2 * (|paras| - i) + LongCost(cfg, paras, i)
    decreases |paras| - i, 1
  {
    hide LongParagraphParts, Overlap;
    if i < |paras| {
      if Overflows(cfg, Buffer(p), paras[i]) {
        if |done| + 1 < cfg.maxChunks {
          PlaceLength(cfg, done + [p], Successor(cfg, p), paras, i);
        }
      } else {
        PlaceLength(cfg, done, p, paras, i);
      }
    }
  }

  lemma {:induction false} NeverReached(cfg: ChunkConfig, text: Text)
    ensures |AllParts(cfg, text)| < Uncapped(cfg, text).maxChunks
  {
    ParagraphsClean(text);
    CostWithoutCap(Uncapped(cfg, text), Paragraphs(text), 0);
    ParagraphsLength(Uncapped(cfg, text), [], Part(OfParagraphs, [], []), Paragraphs(text), 0);
  }

  // --- Packing only ever appends ---

  lemma {:induction false} PlaceAppends(cfg: ChunkConfig, done: seq<Part>, p: Part, paras: seq<Text>, i: nat)
    requires i < |paras| && CleanItems(paras) && Sound(cfg, p)
    ensures done <= PlaceParagraph(cfg, done, p, paras, i)
    ensures |done| < cfg.maxChunks ==> |done| < |PlaceParagraph(cfg, done, p, paras, i)|
    decreases |paras| - i, 0
  {
    hide LongParagraphParts, Overlap;
    if |paras[i]| > cfg.maxChunkSize {
      AfterLongLength(cfg, done, p, paras, i);
      ParagraphsAppend(cfg, AfterLong(cfg, done, p, paras, i), Part(OfParagraphs, [], []), paras, i + 1);
    } else {
      SoundExtend(cfg, p, paras[i]);
      ParagraphsAppend(cfg, done, Extend(p, paras[i]), paras, i + 1);
    }
  }

  lemma {:induction false} ParagraphsAppend(cfg: ChunkConfig, done: seq<Part>, p: Part, paras: seq<Text>, i: nat)
    requires i <= |paras| && CleanItems(paras) && Sound(cfg, p)
    ensures done <= PackParagraphs(cfg, done, p, paras, i)
    ensures |done| < cfg.maxChunks && Buffer(p) != [] ==> |done| < |PackParagraphs(cfg, done, p, paras, i)|
    decreases |paras| - i, 1
  {
    hide LongParagraphParts, Overlap;
    if i < |paras| {
      if Overflows(cfg, Buffer(p), paras[i]) {
        SoundSuccessor(cfg, p);
        if |done| + 1 < cfg.maxChunks {
          PlaceAppends(cfg, done + [p], Successor(cfg, p), paras, i);
        }
      } else {
        PlaceAppends(cfg, done, p, paras, i);
      }
    }
  }

  /** The cap plays no part in how an over-long paragraph is packed. */
  lemma {:induction false} SentencesUncapped(cfg: ChunkConfig, m: nat, done: seq<Part>, p: Part, items: seq<Text>,
                                             i: nat)
    requires i <= |items|
    ensures PackItems(cfg, done, p, items, i) == PackItems(cfg.(maxChunks := m), done, p, items, i)
    decreases |items| - i
  {
    if i < |items| {
      if Overflows(cfg, Buffer(p), items[i]) {
        SentencesUncapped(cfg, m, done + [p], Extend(Successor(cfg, p), items[i]), items, i + 1);
      } else {
        SentencesUncapped(cfg, m, done, Extend(p, items[i]), items, i + 1);
      }
    }
  }

  // --- Where the cap stops ---

  /** A chunk of paragraphs with fresh text in it: the only kind after which the cap is looked at. */
  predicate Regular(p: Part) {
    p.kind == OfParagraphs && p.items != []
  }

  /** How many of a text's parts come out under a cap, from the `k`-th on: up to and with the first regular
      one that fills the cap, but without it if it is the very last one and the cap was full before. */
  function CapStop(cap: nat, parts: seq<Part>, k: nat): (c: nat)
    requires k <= |parts|
    ensures k <= c <= |parts|
    decreases |parts| - k
  {
    if k == |parts| then k
    else if Regular(parts[k]) && k + 1 >= cap then
      if k + 1 == |parts| && k >= cap then k else k + 1
    else CapStop(cap, parts, k + 1)
  }

  lemma {:induction false} CapStopSkips(cap: nat, parts: seq<Part>, k: nat, k': nat)
    requires k <= k' <= |parts| && forall j :: k <= j < k' ==> !Regular(parts[j])
    ensures CapStop(cap, parts, k) == CapStop(cap, parts, k')
    decreases k' - k
  {
    if k < k' {
      CapStopSkips(cap, parts, k + 1, k');
    }
  }

  lemma {:induction false} CapStopMonotone(cap: nat, m: nat, parts: seq<Part>, k: nat)
    requires cap <= m && k <= |parts|
    ensures CapStop(cap, parts, k) <= CapStop(m, parts, k)
    decreases |parts| - k
  {
    if k < |parts| {
      CapStopMonotone(cap, m, parts, k + 1);
    }
  }

  /** `parts` is what the cap leaves of `all` beyond the first `k`. */
  predicate StopsAt(cap: nat, parts: seq<Part>, all: seq<Part>, k: nat) {
    k <= |all| && parts == all[..CapStop(cap, all, k)]
  }

  lemma {:induction false} StopsAtEnd(cap: nat, done: seq<Part>, p: Part)
    requires Regular(p)
    ensures StopsAt(cap, if |done| < cap then done + [p] else done, done + [p], |done|)
  {
  }

  lemma {:induction false} StopsInside(cap: nat, done: seq<Part>, p: Part, all: seq<Part>)
    requires Regular(p) && done + [p] <= all && |done| + 1 < |all|
    ensures |done| + 1 >= cap ==> StopsAt(cap, done + [p], all, |done|)
    ensures |done| + 1 < cap ==> CapStop(cap, all, |done|) == CapStop(cap, all, |done| + 1)
  {
    assert all[|done|] == (done + [p])[|done|];
  }

  lemma {:induction false} StopsAfter(cap: nat, done: seq<Part>, more: seq<Part>, parts: seq<Part>, all: seq<Part>)
    requires done <= more <= all && StopsAt(cap, parts, all, |more|)
    requires forall j :: |done| <= j < |more| ==> !Regular(more[j])
    ensures StopsAt(cap, parts, all, |done|)
  {
    assert forall j :: |done| <= j < |more| ==> all[j] == more[j];
    CapStopSkips(cap, all, |done|, |more|);
  }

  lemma {:induction false} LongIsNotRegular(cfg: ChunkConfig, done: seq<Part>, p: Part, paras: seq<Text>, i: nat)
    requires i < |paras| && CleanItems(paras) && (Buffer(p) != [] ==> p.items == [])
    ensures var more := AfterLong(cfg, done, p, paras, i);
      forall j :: |done| <= j < |more| ==> !Regular(more[j])
  {
    LongParagraphGood(cfg, paras[i], i);
  }

  lemma {:induction false} PlaceStops(cfg: ChunkConfig, m: nat, done: seq<Part>, p: Part, paras: seq<Text>, i: nat)
    requires i < |paras| && CleanItems(paras) && Placing(cfg, done, p, paras[i], i)
    requires |PlaceParagraph(cfg.(maxChunks := m), done, p, paras, i)| < m
    ensures StopsAt(cfg.maxChunks, PlaceParagraph(cfg, done, p, paras, i),
                    PlaceParagraph(cfg.(maxChunks := m), done, p, paras, i), |done|)
    decreases |paras| - i, 0
  {
    hide Overlap;
    if |paras[i]| > cfg.maxChunkSize {
      var more := AfterLong(cfg, done, p, paras, i);
      PlacingLong(cfg, done, p, paras, i);
      SentencesUncapped(cfg, m, [], Part(OfSentences(i), [], []), Sentences(paras[i]), 0);
      ParagraphsStop(cfg, m, more, Part(OfParagraphs, [], []), paras, i + 1);
      AfterLongLength(cfg, done, p, paras, i);
      LongIsNotRegular(cfg, done, p, paras, i);
      ParagraphsAppend(cfg.(maxChunks := m), more, Part(OfParagraphs, [], []), paras, i + 1);
      StopsAfter(cfg.maxChunks, done, more, PlaceParagraph(cfg, done, p, paras, i),
                 PlaceParagraph(cfg.(maxChunks := m), done, p, paras, i));
    } else {
      PlacingShort(cfg, done, p, paras[i], i);
      ParagraphsStop(cfg, m, done, Extend(p, paras[i]), paras, i + 1);
    }
  }

  lemma {:induction false} ParagraphsStop(cfg: ChunkConfig, m: nat, done: seq<Part>, p: Part, paras: seq<Text>, i: nat)
    requires i <= |paras| && CleanItems(paras) && Resting(cfg, done, p, i)
    requires |PackParagraphs(cfg.(maxChunks := m), done, p, paras, i)| < m
    ensures StopsAt(cfg.maxChunks, PackParagraphs(cfg, done, p, paras, i),
                    PackParagraphs(cfg.(maxChunks := m), done, p, paras, i), |done|)
    decreases |paras| - i, 1
  {
    hide LongParagraphParts, Overlap;
    RestingBuffer(cfg, done, p, i);
    if i == |paras| {
      if Buffer(p) != [] {
        StopsAtEnd(cfg.maxChunks, done, p);
      }
    } else if Overflows(cfg, Buffer(p), paras[i]) {
      var all := PackParagraphs(cfg.(maxChunks := m), done, p, paras, i);
      RestingOverflows(cfg, done, p, paras[i], i);
      PlaceAppends(cfg.(maxChunks := m), done + [p], Successor(cfg, p), paras, i);
      StopsInside(cfg.maxChunks, done, p, all);
      if |done| + 1 < cfg.maxChunks {
        PlaceStops(cfg, m, done + [p], Successor(cfg, p), paras, i);
      }
    } else {
      PlaceStops(cfg, m, done, p, paras, i);
    }
  }

  // --- The theorems ---

  /** The cap, exactly: of the parts that the text has without a cap, those before the stop come out. */
  lemma {:induction false} CapExactly(cfg: ChunkConfig, text: Text)
    ensures TextParts(cfg, text) == AllParts(cfg, text)[..CapStop(cfg.maxChunks, AllParts(cfg, text), 0)]
  {
    ParagraphsClean(text);
    TextPartsGood(cfg, text);
    NeverReached(cfg, text);
    ParagraphsStop(cfg, Ample(cfg, Paragraphs(text)), [], Part(OfParagraphs, [], []), Paragraphs(text), 0);
  }

  /** Raising MaxChunks only appends. */
  lemma {:induction false} RaisingAppends(cfg: ChunkConfig, m: nat, text: Text)
    requires cfg.maxChunks <= m
    ensures TextParts(cfg, text) <= TextParts(cfg.(maxChunks := m), text)
  {
    var cfg' := cfg.(maxChunks := m);
    CapExactly(cfg, text);
    CapExactly(cfg', text);
    assert cfg'.(maxChunks := 0) == cfg.(maxChunks := 0);
    assert Uncapped(cfg', text) == Uncapped(cfg, text);
    CapStopMonotone(cfg.maxChunks, m, AllParts(cfg, text), 0);
  }

  /** A regular part that fills the cap and is not the one that just fits. */
  predicate CutsAt(cap: nat, parts: seq<Part>, k: nat) {
    k < |parts| && Regular(parts[k]) && k + 1 >= cap && (k + 1 < |parts| || k >= cap)
  }

  lemma {:induction false} CapStopWhole(cap: nat, parts: seq<Part>, k: nat)
    requires k <= |parts|
    ensures CapStop(cap, parts, k) == |parts| <==> forall j :: k <= j ==> !CutsAt(cap, parts, j)
    decreases |parts| - k
  {
    if k < |parts| {
      CapStopWhole(cap, parts, k + 1);
      assert CutsAt(cap, parts, k) ==> CapStop(cap, parts, k) < |parts|;
    }
  }

  /** The cap loses text exactly if, without it, some regular chunk would fill it and not be the last to
      fit; otherwise every bit of ink comes out. */
  lemma {:induction false} CapLosesTextExactly(cfg: ChunkConfig, text: Text)
    requires |text| > cfg.maxChunkSize
    ensures FreshInk(TextParts(cfg, text)) == Ink(text) <==>
      forall k: nat :: !CutsAt(cfg.maxChunks, AllParts(cfg, text), k)
  {
    var all, c := AllParts(cfg, text), CapStop(cfg.maxChunks, AllParts(cfg, text), 0);
    CapExactly(cfg, text);
    CapStopWhole(cfg.maxChunks, all, 0);
    AllInk(cfg, text);
    PrefixInk(Uncapped(cfg, text), all, c);
  }

  lemma {:induction false} AllInk(cfg: ChunkConfig, text: Text)
    requires |text| > cfg.maxChunkSize
    ensures var all := AllParts(cfg, text);
      FreshInk(all) == Ink(text) && GoodRun(Uncapped(cfg, text), all) && EndsFresh(all)
  {
    var big := Uncapped(cfg, text);
    NeverReached(cfg, text);
    RenderAt(Content, TextParts(big, text), 0);
    var n := Conservation(big, text);
    TextPartsGood(big, text);
    TextPartsNeat(big, text);
  }

  /** A proper prefix of the parts holds less ink. */
  lemma {:induction false} PrefixInk(cfg: ChunkConfig, parts: seq<Part>, c: nat)
    requires GoodRun(cfg, parts) && EndsFresh(parts) && c <= |parts|
    ensures FreshInk(parts[..c]) == FreshInk(parts) <==> c == |parts|
  {
    if c < |parts| {
      var n := |parts| - 1;
      assert Emittable(cfg, parts[n]);
      CleanInk(parts[n].items);
      assert parts[..n] + [parts[n]] == parts && parts[..c] + parts[c..n] == parts[..n];
      FreshAppend(parts[..n], parts[n]);
      FreshConcat(parts[..c], parts[c..n]);
    } else {
      assert parts[..c] == parts;
    }
  }

  lemma {:induction false} CleanInk(items: seq<Text>)
    requires CleanItems(items) && items != []
    ensures Ink(Flatten(items)) != []
  {
    InkOfSpaces(items[0]);
    InkConcat(items[0], Flatten(items[1..]));
  }

  lemma {:induction false} CapStopStart(cap: nat, parts: seq<Part>, k: nat)
    requires k <= |parts| && k < cap
    ensures cap - 1 <= |parts| ==> CapStop(cap, parts, k) == CapStop(cap, parts, cap - 1)
    ensures cap - 1 > |parts| ==> CapStop(cap, parts, k) == |parts|
    decreases |parts| - k
  {
    if k < |parts| && k + 1 < cap {
      CapStopStart(cap, parts, k + 1);
    }
  }

  /** More than MaxChunks chunks come out exactly if, without the cap, there would be more, the one that
      fills the cap is not regular, and it is not just one last regular chunk that is left behind it. */
  lemma {:induction false} CountExceedsExactly(cfg: ChunkConfig, text: Text)
    requires |text| > cfg.maxChunkSize && cfg.maxChunks > 0
    ensures var all, cap := AllParts(cfg, text), cfg.maxChunks;
      |Chunks(cfg, text)| > cap <==>
        |all| > cap && !Regular(all[cap - 1]) && !(|all| == cap + 1 && Regular(all[cap]))
  {
    CapExactly(cfg, text);
    RenderAt(Content, TextParts(cfg, text), 0);
    CapStopExceeds(cfg.maxChunks, AllParts(cfg, text));
  }

  lemma {:induction false} CapStopExceeds(cap: nat, all: seq<Part>)
    requires cap > 0
    ensures CapStop(cap, all, 0) > cap <==>
      |all| > cap && !Regular(all[cap - 1]) && !(|all| == cap + 1 && Regular(all[cap]))
  {
    CapStopStart(cap, all, 0);
  }
}
