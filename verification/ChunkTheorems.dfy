/** What the chunker promises about every text and every configuration. */
module ChunkTheorems {
  import opened Runes
  import opened Splitting
  import opened Packing
  import opened Chunking
  import opened ChunkInvariants

  /** The facts about a text's parts that the theorems below read off. */
  lemma {:induction false} TextPartsGood(cfg: ChunkConfig, text: Text)
    ensures GoodRun(cfg, TextParts(cfg, text))
    ensures Steady(cfg, [], Part(OfParagraphs, [], []), 0)
  {
    ParagraphsClean(text);
    ParagraphsGood(cfg, [], Part(OfParagraphs, [], []), Paragraphs(text), 0);
  }

  lemma {:induction false} ChunkAt(cfg: ChunkConfig, text: Text, k: nat)
    requires |text| > cfg.maxChunkSize && k < |TextParts(cfg, text)|
    ensures |Chunks(cfg, text)| == |TextParts(cfg, text)|
    ensures Chunks(cfg, text)[k] == Chunk(k, Content(TextParts(cfg, text)[k]))
    ensures Emittable(cfg, TextParts(cfg, text)[k])
  {
    RenderAt(Content, TextParts(cfg, text), 0);
    TextPartsGood(cfg, text);
  }

  /** Every chunk is the trim of its overlap, a separator, and its fresh items joined: paragraphs by a blank
      line, sentences by a space. */
  lemma {:induction false} ChunkForm(cfg: ChunkConfig, text: Text, k: nat)
    requires |text| > cfg.maxChunkSize && k < |TextParts(cfg, text)|
    ensures |Chunks(cfg, text)| == |TextParts(cfg, text)|
    ensures var p := TextParts(cfg, text)[k];
      var sep := if p.kind == OfParagraphs then [Newline, Newline] else [Space];
      Chunks(cfg, text)[k].content == Trim(
        if p.items == [] then p.carried
        else (if p.carried == [] then [] else p.carried + sep) + Join(p.items, sep))
  {
    ChunkAt(cfg, text, k);
    BufferForm(TextParts(cfg, text)[k]);
  }

  lemma {:induction false} InkOfPrefix(items: seq<Text>, n: nat)
    requires n <= |items|
    ensures Ink(Flatten(items[..n])) <= Ink(Flatten(items))
    ensures n == |items| ==> items[..n] == items
  {
    assert items == items[..n] + items[n..];
    FlattenConcat(items[..n], items[n..]);
    InkConcat(Flatten(items[..n]), Flatten(items[n..]));
  }

  /** Conservation: overlap apart, the chunks hold the text's first `n` paragraphs, each whole and
      in order, with no ink lost or repeated; and they hold all of them unless the cap is reached. */
  lemma {:induction false} Conservation(cfg: ChunkConfig, text: Text) returns (n: nat)
    requires |text| > cfg.maxChunkSize
    ensures n <= |Paragraphs(text)|
    ensures FreshInk(TextParts(cfg, text)) == Ink(Flatten(Paragraphs(text)[..n])) <= Ink(text)
    ensures |Chunks(cfg, text)| < cfg.maxChunks ==> FreshInk(TextParts(cfg, text)) == Ink(text)
  {
    ParagraphsClean(text);
    n := PartsHoldFirst(cfg, text);
    InkUpToIs(Paragraphs(text), n);
    RenderAt(Content, TextParts(cfg, text), 0);
    InkOfPrefix(Paragraphs(text), n);
  }

  lemma {:induction false} PartsHoldFirst(cfg: ChunkConfig, text: Text) returns (n: nat)
    ensures HoldsFirst(cfg, TextParts(cfg, text), Paragraphs(text), n)
  {
    ReadyAtStart(cfg, text);
    n := ParagraphsConserved(cfg, [], Part(OfParagraphs, [], []), Paragraphs(text), 0, TextParts(cfg, text));
  }

  lemma {:induction false} ReadyAtStart(cfg: ChunkConfig, text: Text)
    ensures Ready(cfg, [], Part(OfParagraphs, [], []), Paragraphs(text), 0)
  {
    ParagraphsClean(text);
    ConsumedWhole([], Part(OfParagraphs, [], []), Paragraphs(text), 0);
  }

  /** The ink of a chunk is that of its overlap followed by that of its fresh items. */
  lemma {:induction false} ChunkInk(cfg: ChunkConfig, text: Text, k: nat)
    requires |text| > cfg.maxChunkSize && k < |TextParts(cfg, text)|
    ensures |Chunks(cfg, text)| == |TextParts(cfg, text)|
    ensures var p := TextParts(cfg, text)[k];
      Ink(Chunks(cfg, text)[k].content) == Ink(p.carried) + Ink(Flatten(p.items))
  {
    ChunkAt(cfg, text, k);
    var p := TextParts(cfg, text)[k];
    BufferOfSound(cfg, p);
    TrimKeepsInk(Buffer(p));
  }

  /** Chunks are numbered from zero without gaps; on the splitting path each is trimmed and
      non-empty, and there is none at all exactly when the text is blank. */
  lemma {:induction false} WellFormed(cfg: ChunkConfig, text: Text)
    ensures forall k :: 0 <= k < |Chunks(cfg, text)| ==> Chunks(cfg, text)[k].sequence == k
    ensures |text| > cfg.maxChunkSize ==>
      forall k :: 0 <= k < |Chunks(cfg, text)| ==>
        Chunks(cfg, text)[k].content != [] && Trimmed(Chunks(cfg, text)[k].content)
    ensures |text| > cfg.maxChunkSize && cfg.maxChunks > 0 ==>
      (Chunks(cfg, text) == [] <==> Ink(text) == [])
  {
    if |text| > cfg.maxChunkSize {
      var parts := TextParts(cfg, text);
      RenderAt(Content, parts, 0);
      forall k | 0 <= k < |parts|
        ensures Content(parts[k]) != []
      {
        ChunkAt(cfg, text, k);
        EndsInk(cfg, parts[k]);
      }
      var n := Conservation(cfg, text);
      if parts != [] {
        TextPartsGood(cfg, text);
        FirstPartHasInk(cfg, parts);
      }
    }
  }

  lemma {:induction false} EndsInk(cfg: ChunkConfig, p: Part)
    requires Emittable(cfg, p)
    ensures Ink(Buffer(p)) != [] && Content(p) != []
  {
    BufferOfSound(cfg, p);
    InkOfSpaces(Buffer(p));
    TrimKeepsInk(Buffer(p));
  }

  lemma {:induction false} FirstPartHasInk(cfg: ChunkConfig, parts: seq<Part>)
    requires GoodRun(cfg, parts) && parts != []
    ensures FreshInk(parts) != []
  {
    assert Emittable(cfg, parts[0]);
    BufferOfSound(cfg, parts[0]);
    EndsInk(cfg, parts[0]);
    assert Ink(parts[0].carried) == [];
    assert parts == parts[..1] + parts[1..];
    FreshConcat(parts[..1], parts[1..]);
    assert parts[..1] == [] + [parts[0]];
    FreshAppend([], parts[0]);
  }

  // --- Overlap between consecutive chunks ---

  lemma {:induction false} TrimOfInkEnd(s: Text)
    requires s != [] && !IsSpace(s[|s| - 1])
    ensures SkipSpaces(s, 0) < |s| && Trim(s) == s[SkipSpaces(s, 0)..]
  {
    SkippedSpaces(s, 0);
    DroppedSpaces(s, SkipSpaces(s, 0), |s|);
  }

  /** Trimming a suffix gives a suffix of the trimmed whole. */
  lemma {:induction false} TrimSuffix(s: Text, m: nat)
    requires m < |s| && !IsSpace(s[|s| - 1])
    ensures |Trim(s[m..])| <= |Trim(s)| && Trim(s[m..]) == Trim(s)[|Trim(s)| - |Trim(s[m..])|..]
  {
    var t := s[m..];
    assert t[|t| - 1] == s[|s| - 1];
    TrimOfInkEnd(s);
    TrimOfInkEnd(t);
    SkippedSpaces(s, 0);
    assert s[m + SkipSpaces(t, 0)] == t[SkipSpaces(t, 0)];
    assert m + SkipSpaces(t, 0) >= SkipSpaces(s, 0);
  }

  /** Trimming a text that opens with `a` gives a text that opens with the trimmed `a`. */
  lemma {:induction false} TrimPrefix(a: Text, s: Text)
    requires a != [] && a <= s && !IsSpace(a[|a| - 1]) && !IsSpace(s[|s| - 1])
    ensures Trim(a) <= Trim(s)
  {
    TrimOfInkEnd(a);
    TrimOfInkEnd(s);
    SkippedSpaces(a, 0);
    SkippedSpaces(s, 0);
    assert forall i :: 0 <= i < |a| ==> s[i] == a[i];
    assert SkipSpaces(a, 0) == SkipSpaces(s, 0);
  }

  lemma {:induction false} BufferOpens(p: Part)
    ensures p.carried <= Buffer(p)
    decreases |p.items|
  {
    if p.items != [] {
      BufferOpens(p.(items := p.items[..|p.items| - 1]));
    }
  }

  predicate EndsWith(s: Text, t: Text) {
    |t| <= |s| && t == s[|s| - |t|..]
  }

  /** The overlap of a text that ends in ink, trimmed, ends the trimmed text; it is not empty if
      anything may be carried at all. */
  lemma {:induction false} OverlapEnds(n: nat, text: Text)
    requires text != [] && !IsSpace(text[|text| - 1])
    ensures var o := Overlap(n, text);
      && (n > 0 ==> o != [])
      && (o != [] ==> !IsSpace(o[|o| - 1]) && 0 < |Trim(o)| <= n && EndsWith(Trim(text), Trim(o)))
  {
    OverlapShape(n, text);
    var o := Overlap(n, text);
    if o != [] {
      OverlapIsSuffix(n, text, o);
    }
  }

  lemma {:induction false} OverlapIsSuffix(n: nat, text: Text, o: Text)
    requires o != [] && |o| <= n && EndsWith(text, o) && !IsSpace(text[|text| - 1])
    ensures !IsSpace(o[|o| - 1]) && 0 < |Trim(o)| <= n && EndsWith(Trim(text), Trim(o))
  {
    TrimSuffix(text, |text| - |o|);
    TrimOfInkEnd(o);
  }

  /** Two consecutive parts belong together: both are made of paragraphs, or of sentences of the same
      over-long paragraph. */
  predicate Together(cfg: ChunkConfig, text: Text, k: nat)
    requires 0 < k < |TextParts(cfg, text)|
  {
    TextParts(cfg, text)[k - 1].kind == TextParts(cfg, text)[k].kind
  }

  /** The overlap, exactly: the first chunk has none, and a later one opens with the overlap taken from
      the chunk before it if the two belong together, and with none if they do not. So it opens with some
      text carried over if and only if they belong together and OverlapSize is not zero. */
  lemma {:induction false} OverlapExactly(cfg: ChunkConfig, text: Text, k: nat)
    requires k < |TextParts(cfg, text)|
    ensures var parts, carried := TextParts(cfg, text), TextParts(cfg, text)[k].carried;
      if k == 0 then carried == []
      else
        && carried == (if Together(cfg, text, k) then Overlap(cfg.overlapSize, Buffer(parts[k - 1])) else [])
        && (carried != [] <==> Together(cfg, text, k) && cfg.overlapSize > 0)
  {
    TextPartsGood(cfg, text);
    if k > 0 {
      CarriedExactly(cfg, TextParts(cfg, text)[k - 1], TextParts(cfg, text)[k]);
    }
  }

  lemma {:induction false} CarriedExactly(cfg: ChunkConfig, q: Part, p: Part)
    requires Emittable(cfg, q) && Follows(cfg, q, p)
    ensures p.carried != [] <==> q.kind == p.kind && cfg.overlapSize > 0
  {
    BufferOfSound(cfg, q);
    OverlapEnds(cfg.overlapSize, Buffer(q));
    OverlapShape(0, Buffer(q));
  }

  /** What two consecutive chunks share: the second one's overlap, trimmed, ends the first and opens the
      second, and is at most OverlapSize long. It is empty if and only if they do not belong together or
      no overlap is configured. A chunk without fresh items is nothing but that shared text. */
  lemma {:induction false} ConsecutiveOverlap(cfg: ChunkConfig, text: Text, k: nat)
    requires |text| > cfg.maxChunkSize && 0 < k < |TextParts(cfg, text)|
    ensures |Chunks(cfg, text)| == |TextParts(cfg, text)|
    ensures var before, after := Chunks(cfg, text)[k - 1].content, Chunks(cfg, text)[k].content;
      var p := TextParts(cfg, text)[k];
      var shared := Trim(p.carried);
      && |shared| <= cfg.overlapSize && EndsWith(before, shared) && shared <= after
      && (shared != [] <==> Together(cfg, text, k) && cfg.overlapSize > 0)
      && (p.items == [] ==> after == shared)
  {
    TextPartsGood(cfg, text);
    SharedInRun(cfg, TextParts(cfg, text), Chunks(cfg, text), k);
  }

  lemma {:induction false} SharedInRun(cfg: ChunkConfig, parts: seq<Part>, chunks: seq<Chunk>, k: nat)
    requires GoodRun(cfg, parts) && chunks == Render(Content, parts, 0) && 0 < k < |parts|
    ensures |chunks| == |parts|
    ensures var before, after, p, shared := chunks[k - 1].content, chunks[k].content, parts[k], Trim(parts[k].carried);
      && |shared| <= cfg.overlapSize && EndsWith(before, shared) && shared <= after
      && (shared != [] <==> parts[k - 1].kind == p.kind && cfg.overlapSize > 0)
      && (p.items == [] ==> after == shared)
  {
    RenderAt(Content, parts, 0);
    var q, p := parts[k - 1], parts[k];
    assert Emittable(cfg, q) && Emittable(cfg, p) && Follows(cfg, q, p);
    CarriedExactly(cfg, q, p);
    SharedText(cfg, q, p);
  }

  lemma {:induction false} SharedText(cfg: ChunkConfig, q: Part, p: Part)
    requires Emittable(cfg, q) && Emittable(cfg, p)
    requires p.carried == [] || p.carried == Overlap(cfg.overlapSize, Buffer(q))
    ensures |Trim(p.carried)| <= cfg.overlapSize
    ensures EndsWith(Content(q), Trim(p.carried)) && Trim(p.carried) <= Content(p)
    ensures Trim(p.carried) != [] <==> p.carried != []
    ensures p.items == [] ==> Content(p) == Trim(p.carried)
  {
    hide Overlap, Trim;
    EndsInInk(cfg, q);
    EndsInInk(cfg, p);
    BufferOpens(p);
    SharedBy(cfg.overlapSize, Buffer(q), p.carried, Buffer(p));
  }

  lemma {:induction false} EndsInInk(cfg: ChunkConfig, p: Part)
    requires Emittable(cfg, p)
    ensures !IsSpace(Buffer(p)[|Buffer(p)| - 1])
  {
    BufferOfSound(cfg, p);
  }

  lemma {:induction false} SharedBy(n: nat, before: Text, carried: Text, after: Text)
    requires before != [] && !IsSpace(before[|before| - 1])
    requires after != [] && !IsSpace(after[|after| - 1])
    requires carried == [] || carried == Overlap(n, before)
    requires carried <= after
    ensures |Trim(carried)| <= n && EndsWith(Trim(before), Trim(carried)) && Trim(carried) <= Trim(after)
    ensures Trim(carried) != [] <==> carried != []
  {
    OverlapEnds(n, before);
    if carried != [] {
      TrimPrefix(carried, after);
    }
  }
}
