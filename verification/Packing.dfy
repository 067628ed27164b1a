/** The greedy packer's shared parts: the overlap carried from one chunk to the next, and the
    packing of one over-long paragraph's sentences. */
module Packing {
  import opened Runes
  import opened Splitting

  datatype ChunkConfig = ChunkConfig(maxChunkSize: nat, overlapSize: nat, maxChunks: nat)

  // --- Overlap ---

  /** The six separators that mark the start of a sentence: a terminator and one plain space. */
  predicate StartsSentence(w: Text, i: nat)
    requires i + 1 < |w|
  {
    IsTerminator(w[i]) && (w[i + 1].Space? || w[i + 1].Newline?)
  }

  const SENTENCE_STARTS: seq<Text> := [
    [Dot, Space], [Bang, Space], [Question, Space], [Dot, Newline], [Bang, Newline], [Question, Newline]
  ]

  predicate MatchesAt(w: Text, sep: Text, i: nat)
    requires |sep| == 2
  {
    i + 1 < |w| && w[i] == sep[0] && w[i + 1] == sep[1]
  }

  /** `strings.Index(w, sep)` from a position on, for a separator of two characters. */
  function Index(w: Text, sep: Text, from: nat): (k: int)
    requires |sep| == 2
    ensures k == -1 || (from <= k && MatchesAt(w, sep, k))
    decreases |w| - from
  {
    if from + 1 >= |w| then -1
    else if MatchesAt(w, sep, from) then from
    else Index(w, sep, from + 1)
  }

  lemma {:induction false} NothingBeforeIndex(w: Text, sep: Text, from: nat)
    requires |sep| == 2
    ensures var k := Index(w, sep, from);
      forall i :: from <= i < (if k == -1 then |w| else k) ==> !MatchesAt(w, sep, i)
    decreases |w| - from
  {
    if from + 1 < |w| && !MatchesAt(w, sep, from) {
      NothingBeforeIndex(w, sep, from + 1);
    }
  }

  /** Where the text after the first occurrence of a separator begins, or -1. */
  function StartAfter(w: Text, sep: Text): int
    requires |sep| == 2
  {
    var k := Index(w, sep, 0);
    if k == -1 then -1 else k + 2
  }

  /** The furthest such place over a list of separators, or -1. */
  function BestStart(w: Text, seps: seq<Text>): int
    requires forall j :: 0 <= j < |seps| ==> |seps[j]| == 2
  {
    if seps == [] then -1
    else
      var best, last := BestStart(w, seps[..|seps| - 1]), StartAfter(w, seps[|seps| - 1]);
      if last > best then last else best
  }

  function FirstSpace(w: Text, from: nat): (k: nat)
    requires from <= |w|
    ensures from <= k <= |w| && (k < |w| ==> IsSpace(w[k]))
    decreases |w| - from
  {
    if from == |w| || IsSpace(w[from]) then from else FirstSpace(w, from + 1)
  }

  lemma {:induction false} NoSpaceBefore(w: Text, from: nat)
    requires from <= |w|
    ensures forall i :: from <= i < FirstSpace(w, from) ==> !IsSpace(w[i])
    decreases |w| - from
  {
    if from < |w| && !IsSpace(w[from]) {
      NoSpaceBefore(w, from + 1);
    }
  }

  /** The part of a window that is carried over. */
  function Carry(w: Text): Text {
    var best := BestStart(w, SENTENCE_STARTS);
    if 0 < best < |w| then w[best..]
    else
      var k := FirstSpace(w, 0);
      if k < |w| then w[k + 1..] else w
  }

  function Overlap(n: nat, text: Text): Text {
    if |text| <= n then text else Carry(text[|text| - n..])
  }

  method GetOverlap(cfg: ChunkConfig, text: Text) returns (r: Text)
    ensures r == Overlap(cfg.overlapSize, text)
  {
    if |text| <= cfg.overlapSize {
      return text;
    }
    var overlap := text[|text| - cfg.overlapSize..];
    var seps := SENTENCE_STARTS;
    var bestIdx := -1;
    for j := 0 to |seps|
      invariant bestIdx == BestStart(overlap, seps[..j])
    {
      assert seps[..j + 1][..j] == seps[..j];
      var idx := Index(overlap, seps[j], 0);
      if idx != -1 {
        var candidate := idx + 2;
        if candidate > bestIdx {
          bestIdx := candidate;
        }
      }
    }
    assert seps[..|seps|] == seps;
    if bestIdx > 0 && bestIdx < |overlap| {
      return overlap[bestIdx..];
    }
    var i := 0;
    while i < |overlap|
      invariant 0 <= i <= |overlap| && FirstSpace(overlap, i) == FirstSpace(overlap, 0)
    {
      if IsSpace(overlap[i]) {
        return overlap[i + 1..];
      }
      i := i + 1;
    }
    return overlap;
  }

  predicate IsSentenceStart(sep: Text) {
    |sep| == 2 && IsTerminator(sep[0]) && (sep[1].Space? || sep[1].Newline?)
  }

  lemma {:induction false} BestStartOver(w: Text, seps: seq<Text>)
    requires forall j :: 0 <= j < |seps| ==> |seps[j]| == 2 && IsSentenceStart(seps[j])
    ensures BestStart(w, seps) == -1 || (2 <= BestStart(w, seps) <= |w| && StartsSentence(w, BestStart(w, seps) - 2))
    ensures BestStart(w, seps) == -1 ==> forall j, i :: 0 <= j < |seps| && 0 <= i < |w| ==> !MatchesAt(w, seps[j], i)
  {
    if seps != [] {
      BestStartOver(w, seps[..|seps| - 1]);
      NothingBeforeIndex(w, seps[|seps| - 1], 0);
    }
  }

  /** The best start lies right after a sentence start, and there is one whenever the window has
      a sentence start at all. */
  lemma {:induction false} BestStartSound(w: Text)
    ensures var best := BestStart(w, SENTENCE_STARTS);
      best == -1 || (2 <= best <= |w| && StartsSentence(w, best - 2))
    ensures BestStart(w, SENTENCE_STARTS) == -1 <==> forall i :: 0 <= i && i + 1 < |w| ==> !StartsSentence(w, i)
  {
    var seps := SENTENCE_STARTS;
    BestStartOver(w, seps);
    if BestStart(w, seps) == -1 {
      forall i | 0 <= i && i + 1 < |w|
        ensures !StartsSentence(w, i)
      {
        assert !MatchesAt(w, seps[0], i) && !MatchesAt(w, seps[1], i) && !MatchesAt(w, seps[2], i);
        assert !MatchesAt(w, seps[3], i) && !MatchesAt(w, seps[4], i) && !MatchesAt(w, seps[5], i);
      }
    }
  }

  predicate FirstMatch(w: Text, sep: Text, i: nat)
    requires |sep| == 2
  {
    MatchesAt(w, sep, i) && forall k :: 0 <= k < i ==> !MatchesAt(w, sep, k)
  }

  lemma {:induction false} BestStartLatest(w: Text, seps: seq<Text>)
    requires forall j :: 0 <= j < |seps| ==> |seps[j]| == 2
    ensures forall j: int, i: nat :: 0 <= j < |seps| && FirstMatch(w, seps[j], i) ==> i + 2 <= BestStart(w, seps)
    ensures BestStart(w, seps) == -1 ||
      (BestStart(w, seps) >= 2 && exists j :: 0 <= j < |seps| && FirstMatch(w, seps[j], BestStart(w, seps) - 2))
  {
    if seps != [] {
      var n := |seps| - 1;
      BestStartLatest(w, seps[..n]);
      NothingBeforeIndex(w, seps[n], 0);
      var best, before := BestStart(w, seps), BestStart(w, seps[..n]);
      assert forall i: nat :: FirstMatch(w, seps[n], i) ==> Index(w, seps[n], 0) == i;
      if best != before {
        assert FirstMatch(w, seps[n], best - 2);
      } else if best != -1 {
        var j :| 0 <= j < n && FirstMatch(w, seps[..n][j], best - 2);
        assert FirstMatch(w, seps[j], best - 2);
      }
      forall j: int, i: nat | 0 <= j < |seps| && FirstMatch(w, seps[j], i)
        ensures i + 2 <= best
      {
        assert j < n ==> seps[..n][j] == seps[j];
      }
    }
  }

  /** The best start exactly: each of the six sentence starts is looked up once, where it first occurs,
      and the latest of these places wins. */
  lemma {:induction false} BestStartExact(w: Text)
    ensures var best := BestStart(w, SENTENCE_STARTS);
      && (forall sep, i: nat :: sep in SENTENCE_STARTS && FirstMatch(w, sep, i) ==> i + 2 <= best)
      && (best != -1 ==> best >= 2 && exists sep :: sep in SENTENCE_STARTS && FirstMatch(w, sep, best - 2))
  {
    var seps, best := SENTENCE_STARTS, BestStart(w, SENTENCE_STARTS);
    BestStartLatest(w, seps);
    if best != -1 {
      var j :| 0 <= j < |seps| && FirstMatch(w, seps[j], best - 2);
      assert seps[j] in SENTENCE_STARTS;
    }
    forall sep, i: nat | sep in SENTENCE_STARTS && FirstMatch(w, sep, i)
      ensures i + 2 <= best
    {
      var j :| 0 <= j < |seps| && seps[j] == sep;
    }
  }

  /** Without a sentence start that has text behind it, the overlap opens after the first white space. */
  lemma {:induction false} CarryFallback(w: Text)
    requires BestStart(w, SENTENCE_STARTS) == -1 || BestStart(w, SENTENCE_STARTS) == |w|
    ensures var r := Carry(w);
      && |r| <= |w| && r == w[|w| - |r|..]
      && (forall i :: 0 <= i < |w| - |r| - 1 ==> !IsSpace(w[i]))
      && (|r| < |w| <==> exists i :: 0 <= i < |w| && IsSpace(w[i]))
  {
    NoSpaceBefore(w, 0);
    var k := FirstSpace(w, 0);
    if k < |w| {
      assert IsSpace(w[k]);
    }
  }

  lemma {:induction false} CarryShape(w: Text)
    ensures var r := Carry(w);
      && |r| <= |w| && r == w[|w| - |r|..]
      && (|r| < |w| ==> IsSpace(w[|w| - |r| - 1]))
      && (|r| == |w| ==> forall i :: 0 <= i < |w| ==> !IsSpace(w[i]))
  {
    BestStartSound(w);
    NoSpaceBefore(w, 0);
    var best := BestStart(w, SENTENCE_STARTS);
    if 0 < best < |w| {
      assert IsSpace(w[best - 1]);
    }
  }

  /** The overlap is a suffix of the text no longer than the configured size. It is the whole text
      if that fits; otherwise it opens right after a sentence start, or right after white space when
      the window holds no sentence start with text behind it; and it cuts into a word only if the
      window is a single unbroken word. */
  lemma {:induction false} OverlapShape(n: nat, text: Text)
    ensures var r := Overlap(n, text);
      && |r| <= n && |r| <= |text| && r == text[|text| - |r|..]
      && (|text| <= n ==> r == text)
      && (|text| > n && |r| < n ==> IsSpace(text[|text| - |r| - 1]))
      && (|text| > n && |r| == n ==> forall i :: |text| - n <= i < |text| ==> !IsSpace(text[i]))
  {
    if |text| > n {
      var w := text[|text| - n..];
      CarryShape(w);
      assert forall i :: 0 <= i < n ==> w[i] == text[|text| - n + i];
      forall i | |text| - n <= i < |text| && |Carry(w)| == n
        ensures !IsSpace(text[i])
      {
        assert text[i] == w[i - (|text| - n)];
      }
    }
  }

  /** The six patterns: a full stop, an exclamation or a question mark, and a space or a newline. */
  predicate IsPattern(sep: Text) {
    |sep| == 2 && (sep[0] == Dot || sep[0] == Bang || sep[0] == Question) && (sep[1] == Space || sep[1] == Newline)
  }

  lemma {:induction false} PatternsAreStarts(sep: Text)
    ensures IsPattern(sep) <==> sep in SENTENCE_STARTS
  {
    var seps := SENTENCE_STARTS;
    assert seps[0] == [Dot, Space] && seps[1] == [Bang, Space] && seps[2] == [Question, Space];
    assert seps[3] == [Dot, Newline] && seps[4] == [Bang, Newline] && seps[5] == [Question, Newline];
    if IsPattern(sep) {
      assert sep == [sep[0], sep[1]];
    }
  }

  /** `p` is the first place of some pattern, and no pattern has its first place further on. */
  ghost predicate FurthestStart(w: Text, p: nat) {
    && (exists sep :: IsPattern(sep) && FirstMatch(w, sep, p))
    && (forall sep, i: nat :: IsPattern(sep) && FirstMatch(w, sep, i) ==> i <= p)
  }

  /** The same for a window: the last `n` characters of a text. */
  ghost predicate FurthestInWindow(n: nat, text: Text, p: nat)
    requires n <= |text|
  {
    FurthestStart(text[|text| - n..], p)
  }

  lemma {:induction false} FurthestIsBest(w: Text, p: nat)
    requires FurthestStart(w, p)
    ensures BestStart(w, SENTENCE_STARTS) == p + 2
  {
    BestStartExact(w);
    var best := BestStart(w, SENTENCE_STARTS);
    var sep :| IsPattern(sep) && FirstMatch(w, sep, p);
    PatternsAreStarts(sep);
    var other :| other in SENTENCE_STARTS && FirstMatch(w, other, best - 2);
    PatternsAreStarts(other);
  }

  /** A cut overlap, exactly, where its window has a sentence start with text behind it: it begins right
      behind the furthest of the patterns' first places. */
  lemma {:induction false} OverlapAtStart(n: nat, text: Text, p: nat)
    requires n < |text| && FurthestInWindow(n, text, p) && p + 2 < n
    ensures Overlap(n, text) == text[|text| - n + p + 2..]
  {
    FurthestIsBest(text[|text| - n..], p);
  }

  lemma {:induction false} UnusableStart(n: nat, text: Text)
    requires n < |text| && forall p: nat :: FurthestInWindow(n, text, p) ==> p + 2 == n
    ensures var best := BestStart(text[|text| - n..], SENTENCE_STARTS); best == -1 || best == n
  {
    var w := text[|text| - n..];
    var best := BestStart(w, SENTENCE_STARTS);
    BestStartExact(w);
    if best != -1 {
      var sep :| sep in SENTENCE_STARTS && FirstMatch(w, sep, best - 2);
      PatternsAreStarts(sep);
      forall other, i: nat | IsPattern(other) && FirstMatch(w, other, i)
        ensures i <= best - 2
      {
        PatternsAreStarts(other);
      }
      assert FurthestInWindow(n, text, best - 2);
    }
  }

  predicate AnySpace(w: Text) {
    exists i :: 0 <= i < |w| && IsSpace(w[i])
  }

  /** `r` is what stands behind the first white space of `w`, or all of `w` if there is none. */
  predicate BehindFirstSpace(w: Text, r: Text) {
    && |r| <= |w| && r == w[|w| - |r|..]
    && (forall i :: 0 <= i < |w| - |r| - 1 ==> !IsSpace(w[i]))
    && (if AnySpace(w) then |r| < |w| && IsSpace(w[|w| - |r| - 1]) else r == w)
  }

  lemma {:induction false} CarryAtSpace(w: Text)
    requires BestStart(w, SENTENCE_STARTS) == -1 || BestStart(w, SENTENCE_STARTS) == |w|
    ensures BehindFirstSpace(w, Carry(w))
  {
    CarryFallback(w);
    CarryShape(w);
  }

  /** And where it has none: it begins right behind the first white space, if there is any. */
  lemma {:induction false} OverlapAtSpace(n: nat, text: Text)
    requires n < |text| && forall p: nat :: FurthestInWindow(n, text, p) ==> p + 2 == n
    ensures BehindFirstSpace(text[|text| - n..], Overlap(n, text))
  {
    UnusableStart(n, text);
    CarryAtSpace(text[|text| - n..]);
  }

  predicate HasSentenceStart(w: Text) {
    exists i :: 0 <= i && i + 1 < |w| && StartsSentence(w, i)
  }

  lemma {:induction false} CarryAtSentence(w: Text)
    requires w != [] && !IsSpace(w[|w| - 1])
    ensures HasSentenceStart(w) <==> |Carry(w)| + 2 <= |w| && StartsSentence(w, |w| - |Carry(w)| - 2)
  {
    BestStartSound(w);
  }

  /** For a text that does not end in white space, as every buffer does, a cut overlap opens at a
      sentence start exactly when the window contains one. */
  lemma {:induction false} OverlapAtSentence(n: nat, text: Text)
    requires 0 < n < |text| && !IsSpace(text[|text| - 1])
    ensures var r := Overlap(n, text);
      HasSentenceStart(text[|text| - n..]) <==> |r| + 2 <= n && StartsSentence(text, |text| - |r| - 2)
  {
    var w := text[|text| - n..];
    assert w[|w| - 1] == text[|text| - 1];
    CarryAtSentence(w);
    var m := n - |Carry(w)| - 2;
    if m >= 0 {
      assert w[m] == text[|text| - n + m] && w[m + 1] == text[|text| - n + m + 1];
    }
  }

  // --- Parts: what one chunk is made of ---

  /** A chunk in the making: the overlap carried over from the chunk before, and the fresh items
      (paragraphs or sentences) written behind it, with a separator in front of each item that is
      not the first thing in the buffer. */
  datatype Part = Part(kind: Kind, carried: Text, items: seq<Text>)

  /** What the fresh items of a part are, which settles the separator between them: paragraphs, or
      sentences of the over-long paragraph at a given place in the text. */
  datatype Kind = OfParagraphs | OfSentences(paragraph: nat)

  function Separator(kind: Kind): Text {
    if kind.OfParagraphs? then BLANK_LINE else SPACE
  }

  lemma {:induction false} SeparatorHasNoInk(kind: Kind)
    ensures Ink(Separator(kind)) == []
  {
    InkOfSpaces(Separator(kind));
  }

  datatype Chunk = Chunk(sequence: nat, content: Text)

  const SPACE: Text := [Space]

  function Append(buffer: Text, sep: Text, item: Text): Text {
    (if |buffer| > 0 then buffer + sep else buffer) + item
  }

  /** What the string builder holds for a part. */
  function Buffer(p: Part): Text
    decreases |p.items|
  {
    if p.items == [] then p.carried
    else
      var n := |p.items| - 1;
      Append(Buffer(p.(items := p.items[..n])), Separator(p.kind), p.items[n])
  }

  function Extend(p: Part, item: Text): Part {
    p.(items := p.items + [item])
  }

  lemma {:induction false} BufferExtend(p: Part, item: Text)
    ensures Buffer(Extend(p, item)) == Append(Buffer(p), Separator(p.kind), item)
  {
    assert (p.items + [item])[..|p.items|] == p.items;
  }

  function Content(p: Part): Text {
    Trim(Buffer(p))
  }

  /** The part that follows `p`, opened with the overlap taken from its buffer. */
  function Successor(cfg: ChunkConfig, p: Part): Part {
    Part(p.kind, Overlap(cfg.overlapSize, Buffer(p)), [])
  }

  /** Writes an item into the string builder, behind a separator if there is something there. */
  method WriteItem(buffer: Text, sep: Text, item: Text) returns (r: Text)
    ensures r == Append(buffer, sep, item)
  {
    r := buffer;
    if |r| > 0 {
      r := r + sep;
    }
    r := r + item;
  }

  method FinalizeChunk(seqNo: nat, content: Text) returns (chunk: Chunk)
    ensures chunk == Chunk(seqNo, Trim(content))
  {
    chunk := Chunk(seqNo, Trim(content));
  }

  /** The chunks made of a list of parts, numbered from `first` on. */
  function Render(content: Part -> Text, parts: seq<Part>, first: nat): seq<Chunk> {
    if parts == [] then []
    else
      var n := |parts| - 1;
      Render(content, parts[..n], first) + [Chunk(first + n, content(parts[n]))]
  }

  lemma {:induction false} RenderConcat(content: Part -> Text, a: seq<Part>, b: seq<Part>, first: nat)
    ensures Render(content, a + b, first) == Render(content, a, first) + Render(content, b, first + |a|)
  {
    if b == [] {
      assert a + b == a;
    } else {
      var n := |b| - 1;
      assert (a + b)[..|a| + n] == a + b[..n];
      RenderConcat(content, a, b[..n], first);
    }
  }

  lemma {:induction false} RenderAppend(content: Part -> Text, done: seq<Part>, p: Part, first: nat)
    ensures Render(content, done + [p], first)
         == Render(content, done, first) + [Chunk(first + |done|, content(p))]
  {
    assert (done + [p])[..|done|] == done;
  }

  lemma {:induction false} RenderAt(content: Part -> Text, parts: seq<Part>, first: nat)
    ensures |Render(content, parts, first)| == |parts|
    ensures forall i :: 0 <= i < |parts| ==>
      Render(content, parts, first)[i] == Chunk(first + i, content(parts[i]))
  {
    if parts != [] {
      RenderAt(content, parts[..|parts| - 1], first);
    }
  }

  lemma {:induction false} RenderJoin(content: Part -> Text, a: seq<Part>, b: seq<Part>, ca: seq<Chunk>, cb: seq<Chunk>)
    requires ca == Render(content, a, 0) && cb == Render(content, b, |a|)
    ensures ca + cb == Render(content, a + b, 0) && |ca + cb| == |a + b|
  {
    RenderConcat(content, a, b, 0);
    RenderAt(content, a + b, 0);
  }

  /** The size check that both packers make before they add an item. */
  predicate Overflows(cfg: ChunkConfig, buffer: Text, item: Text) {
    |buffer| > 0 && |buffer| + |item| + 1 > cfg.maxChunkSize
  }

  // --- Packing the sentences of one over-long paragraph ---

  /** The parts of a paragraph, given those already emitted, the one being filled, and the position
      of the next sentence. */
  function PackItems(cfg: ChunkConfig, done: seq<Part>, p: Part, items: seq<Text>, i: nat): seq<Part>
    requires i <= |items|
    decreases |items| - i
  {
    if i == |items| then
      if Buffer(p) == [] then done else done + [p]
    else if Overflows(cfg, Buffer(p), items[i]) then
      PackItems(cfg, done + [p], Extend(Successor(cfg, p), items[i]), items, i + 1)
    else
      PackItems(cfg, done, Extend(p, items[i]), items, i + 1)
  }

  function LongParagraphParts(cfg: ChunkConfig, para: Text, n: nat): seq<Part> {
    PackItems(cfg, [], Part(OfSentences(n), [], []), Sentences(para), 0)
  }

  /** The chunks so far are exactly those of the parts so far. */
  predicate Rendered(chunks: seq<Chunk>, first: nat, seqNo: nat, done: seq<Part>) {
    chunks == Render(Content, done, first) && seqNo == first + |done| && |chunks| == |done|
  }

  /** Finalizes the buffer as the next chunk. */
  method EmitChunk(before: seq<Chunk>, ghost first: nat, seq0: nat, current: Text, ghost done: seq<Part>, ghost p: Part)
    returns (chunks: seq<Chunk>, seqNo: nat)
    requires Rendered(before, first, seq0, done) && current == Buffer(p)
    ensures Rendered(chunks, first, seqNo, done + [p])
  {
    var chunk := FinalizeChunk(seq0, current);
    RenderAppend(Content, done, p, first);
    chunks := before + [chunk];
    seqNo := seq0 + 1;
  }

  method PackAll(cfg: ChunkConfig, seq0: nat, sentences: seq<Text>, ghost n: nat, ghost all: seq<Part>)
    returns (chunks: seq<Chunk>, seqNo: nat)
    requires all == PackItems(cfg, [], Part(OfSentences(n), [], []), sentences, 0)
    ensures Rendered(chunks, seq0, seqNo, all)
  {
    chunks := [];
    seqNo := seq0;
    var current: Text := [];
    ghost var done, p := [], Part(OfSentences(n), [], []);
    for i := 0 to |sentences|
      invariant p.kind == OfSentences(n) && current == Buffer(p)
      invariant Rendered(chunks, seq0, seqNo, done)
      invariant PackItems(cfg, done, p, sentences, i) == all
    {
      var sent := sentences[i];
      if |current| > 0 && |current| + |sent| + 1 > cfg.maxChunkSize {
        chunks, seqNo := EmitChunk(chunks, seq0, seqNo, current, done, p);
        current := GetOverlap(cfg, current);
        done, p := done + [p], Successor(cfg, p);
      }
      BufferExtend(p, sent);
      current := WriteItem(current, SPACE, sent);
      p := Extend(p, sent);
    }
    if |current| > 0 {
      chunks, seqNo := EmitChunk(chunks, seq0, seqNo, current, done, p);
    }
  }

  method SplitLongParagraph(cfg: ChunkConfig, seq0: nat, para: Text, ghost n: nat)
    returns (chunks: seq<Chunk>, seqNo: nat)
    ensures chunks == Render(Content, LongParagraphParts(cfg, para, n), seq0)
    ensures seqNo == seq0 + |LongParagraphParts(cfg, para, n)|
  {
    var sentences := SplitSentences(para);
    chunks, seqNo := PackAll(cfg, seq0, sentences, n, LongParagraphParts(cfg, para, n));
  }
}
