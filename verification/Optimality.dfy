/** Without overlap, packing greedily is optimal: the sentences of an over-long paragraph, and paragraphs
    that all fit. */
module Optimality {
  import opened Sequences
  import opened Runes
  import opened Splitting
  import opened Packing
  import opened Chunking
  import opened ChunkInvariants
  import opened ChunkLimits
  import opened ChunkCap

  /** The length of `items[a..b]` when each is followed by `w` more characters. */
  function Span(items: seq<Text>, w: nat, a: nat, b: nat): nat
    requires a <= b <= |items|
  {
    if a == b then 0 else Span(items, w, a, b - 1) + |items[b - 1]| + w
  }

  lemma {:induction false} SpanMonotone(items: seq<Text>, w: nat, a: nat, b: nat, a': nat, b': nat)
    requires a' <= a <= b <= b' <= |items|
    ensures Span(items, w, a, b) <= Span(items, w, a', b')
    decreases b'
  {
    if b < b' {
      SpanMonotone(items, w, a, b, a', b' - 1);
    } else if a < b {
      SpanMonotone(items, w, a, b - 1, a', b - 1);
    }
  }

  /** The longest a part of more than one item can be: the size check counts one character for a
      separator. */
  function Limit(cfg: ChunkConfig, kind: Kind): int {
    cfg.maxChunkSize + |Separator(kind)| - 1
  }

  /** A way to group the items in order: group `k` is `items[cuts[k]..cuts[k + 1]]`, no group is empty,
      and each is a single item or fits the limit once its items are joined. */
  predicate Grouping(cfg: ChunkConfig, kind: Kind, items: seq<Text>, cuts: seq<nat>) {
    && |cuts| > 0 && cuts[0] == 0 && cuts[|cuts| - 1] == |items|
    && forall k :: 0 <= k < |cuts| - 1 ==> GroupFits(cfg, kind, items, cuts, k)
  }

  predicate GroupFits(cfg: ChunkConfig, kind: Kind, items: seq<Text>, cuts: seq<nat>, k: nat)
    requires k + 1 < |cuts|
  {
    && cuts[k] < cuts[k + 1] <= |items|
    && (cuts[k + 1] == cuts[k] + 1 || |Join(items[cuts[k]..cuts[k + 1]], Separator(kind))| <= Limit(cfg, kind))
  }

  lemma {:induction false} JoinLength(items: seq<Text>, sep: Text, a: nat, b: nat)
    requires a < b <= |items|
    ensures |Join(items[a..b], sep)| == Span(items, |sep|, a, b) - |sep|
  {
    SliceSnoc(items, a, b);
    JoinAppend(items[a..b - 1], items[b - 1], sep);
    if a < b - 1 {
      JoinLength(items, sep, a, b - 1);
    }
  }

  lemma {:induction false} SliceSnoc<T>(items: seq<T>, a: nat, b: nat)
    requires a < b <= |items|
    ensures items[a..b] == items[a..b - 1] + [items[b - 1]]
  {
  }

  /** The state of the packer between two items: the buffer holds `items[start..i]`. */
  predicate Holds(p: Part, kind: Kind, items: seq<Text>, start: nat, i: nat) {
    && start <= i <= |items|
    && p.kind == kind && p.carried == [] && p.items == items[start..i]
    && Buffer(p) == Join(items[start..i], Separator(kind))
  }

  lemma {:induction false} HoldsExtend(p: Part, kind: Kind, items: seq<Text>, start: nat, i: nat)
    requires Holds(p, kind, items, start, i) && (start < i ==> Buffer(p) != []) && i < |items|
    ensures Holds(Extend(p, items[i]), kind, items, start, i + 1)
  {
    SliceSnoc(items, start, i + 1);
    BufferExtend(p, items[i]);
    JoinAppend(items[start..i], items[i], Separator(kind));
  }

  lemma {:induction false} HeldBuffer(p: Part, kind: Kind, items: seq<Text>, start: nat, i: nat)
    requires CleanItems(items) && Holds(p, kind, items, start, i)
    ensures Buffer(p) == [] <==> start == i
    ensures start < i ==> |Buffer(p)| == Span(items, |Separator(kind)|, start, i) - |Separator(kind)|
  {
    if start < i {
      JoinOfCleanItems(items[start..i], Separator(kind));
      JoinLength(items, Separator(kind), start, i);
    }
  }

  lemma {:induction false} HoldsSuccessor(cfg: ChunkConfig, p: Part, kind: Kind, items: seq<Text>, i: nat)
    requires cfg.overlapSize == 0 && i <= |items| && p.kind == kind
    ensures Holds(Successor(cfg, p), kind, items, i, i)
  {
    OverlapShape(0, Buffer(p));
    assert items[i..i] == [];
  }

  lemma {:induction false} HoldsNext(cfg: ChunkConfig, p: Part, kind: Kind, items: seq<Text>, i: nat)
    requires cfg.overlapSize == 0 && i < |items| && p.kind == kind
    ensures Holds(Extend(Successor(cfg, p), items[i]), kind, items, i, i + 1)
  {
    HoldsSuccessor(cfg, p, kind, items, i);
    HoldsExtend(Successor(cfg, p), kind, items, i, i);
  }

  /** When `items[i]` overflows the buffer that holds `items[start..i]`, a group that starts no later than
      `start` cannot reach past `i`. */
  lemma {:induction false} GroupEnds(cfg: ChunkConfig, p: Part, kind: Kind, items: seq<Text>, start: nat, i: nat,
                                     cuts: seq<nat>, j: nat)
    requires CleanItems(items) && Grouping(cfg, kind, items, cuts) && j < |cuts| && cuts[j] <= start
    requires Holds(p, kind, items, start, i) && i < |items| && Overflows(cfg, Buffer(p), items[i])
    ensures j + 1 < |cuts| && cuts[j + 1] <= i
  {
    HeldBuffer(p, kind, items, start, i);
    GroupTooLong(cfg, kind, items, start, i, cuts, j);
  }

  lemma {:induction false} GroupTooLong(cfg: ChunkConfig, kind: Kind, items: seq<Text>, start: nat, i: nat,
                                        cuts: seq<nat>, j: nat)
    requires Grouping(cfg, kind, items, cuts) && j < |cuts| && cuts[j] <= start < i < |items|
    requires Span(items, |Separator(kind)|, start, i + 1) - |Separator(kind)| > Limit(cfg, kind)
    ensures j + 1 < |cuts| && cuts[j + 1] <= i
  {
    assert GroupFits(cfg, kind, items, cuts, j);
    JoinLength(items, Separator(kind), cuts[j], cuts[j + 1]);
    if cuts[j + 1] > i {
      SpanMonotone(items, |Separator(kind)|, start, i + 1, cuts[j], cuts[j + 1]);
    }
  }

  /** A part of more than one item keeps the limit. */
  predicate Fitting(cfg: ChunkConfig, p: Part) {
    |p.items| <= 1 || |Buffer(p)| <= Limit(cfg, p.kind)
  }

  lemma {:induction false} StillFitting(cfg: ChunkConfig, p: Part, kind: Kind, items: seq<Text>, start: nat, i: nat)
    requires CleanItems(items) && Holds(p, kind, items, start, i) && i < |items|
    requires !Overflows(cfg, Buffer(p), items[i])
    ensures Fitting(cfg, Extend(p, items[i]))
  {
    HeldBuffer(p, kind, items, start, i);
    BufferExtend(p, items[i]);
  }

  /** One step of the packer: the next item joins the open group, or opens one of its own. */
  lemma {:induction false} Advance(cfg: ChunkConfig, done: seq<Part>, p: Part, kind: Kind, items: seq<Text>,
                                   start: nat, i: nat)
    returns (done': seq<Part>, p': Part, start': nat)
    requires cfg.overlapSize == 0 && CleanItems(items) && Holds(p, kind, items, start, i) && i < |items|
    ensures Holds(p', kind, items, start', i + 1) && Fitting(cfg, p')
    ensures PackItems(cfg, done, p, items, i) == PackItems(cfg, done', p', items, i + 1)
    ensures if Overflows(cfg, Buffer(p), items[i]) then start < i && start' == i && done' == done + [p]
            else start' == start && done' == done
  {
    HeldBuffer(p, kind, items, start, i);
    if Overflows(cfg, Buffer(p), items[i]) {
      HoldsNext(cfg, p, kind, items, i);
      done', p', start' := done + [p], Extend(Successor(cfg, p), items[i]), i;
    } else {
      HoldsExtend(p, kind, items, start, i);
      StillFitting(cfg, p, kind, items, start, i);
      done', p', start' := done, Extend(p, items[i]), start;
    }
  }

  /** The packer's open group starts no earlier than group `j` of a grouping. */
  predicate Ahead(cfg: ChunkConfig, kind: Kind, items: seq<Text>, start: nat, cuts: seq<nat>, j: nat) {
    Grouping(cfg, kind, items, cuts) && j < |cuts| && cuts[j] <= start
  }

  /** One step keeps it ahead: a new group is opened only when the grouping's group has ended. */
  lemma {:induction false} AheadStep(cfg: ChunkConfig, p: Part, kind: Kind, items: seq<Text>, start: nat, i: nat,
                                     cuts: seq<nat>, j: nat)
    requires CleanItems(items) && Ahead(cfg, kind, items, start, cuts, j)
    requires Holds(p, kind, items, start, i) && i < |items| && Overflows(cfg, Buffer(p), items[i])
    ensures Ahead(cfg, kind, items, i, cuts, j + 1)
  {
    GroupEnds(cfg, p, kind, items, start, i, cuts, j);
  }

  /** The greedy packer stays ahead: with its open group starting no earlier than group `j` of some
      grouping, it needs no more groups than that grouping has left. */
  lemma {:induction false} StaysAhead(cfg: ChunkConfig, done: seq<Part>, p: Part, kind: Kind, items: seq<Text>,
                                      start: nat, i: nat, cuts: seq<nat>, j: nat, parts: seq<Part>)
    requires cfg.overlapSize == 0 && CleanItems(items) && Ahead(cfg, kind, items, start, cuts, j)
    requires Holds(p, kind, items, start, i) && parts == PackItems(cfg, done, p, items, i)
    ensures |parts| <= |done| + |cuts| - 1 - j
    decreases |items| - i
  {
    if i == |items| {
      StaysAheadAtEnd(cfg, done, p, kind, items, start, cuts, j);
    } else {
      var done', p', start', j' := StepAhead(cfg, done, p, kind, items, start, i, cuts, j);
      StaysAhead(cfg, done', p', kind, items, start', i + 1, cuts, j', parts);
    }
  }

  lemma {:induction false} StepAhead(cfg: ChunkConfig, done: seq<Part>, p: Part, kind: Kind, items: seq<Text>,
                                     start: nat, i: nat, cuts: seq<nat>, j: nat)
    returns (done': seq<Part>, p': Part, start': nat, j': nat)
    requires cfg.overlapSize == 0 && CleanItems(items) && Ahead(cfg, kind, items, start, cuts, j)
    requires Holds(p, kind, items, start, i) && i < |items|
    ensures Ahead(cfg, kind, items, start', cuts, j') && Holds(p', kind, items, start', i + 1)
    ensures PackItems(cfg, done, p, items, i) == PackItems(cfg, done', p', items, i + 1)
    ensures |done'| - j' == |done| - j
  {
    done', p', start' := Advance(cfg, done, p, kind, items, start, i);
    j' := j;
    if Overflows(cfg, Buffer(p), items[i]) {
      AheadStep(cfg, p, kind, items, start, i, cuts, j);
      j' := j + 1;
    }
  }

  lemma {:induction false} StaysAheadAtEnd(cfg: ChunkConfig, done: seq<Part>, p: Part, kind: Kind, items: seq<Text>,
                                           start: nat, cuts: seq<nat>, j: nat)
    requires Ahead(cfg, kind, items, start, cuts, j) && Holds(p, kind, items, start, |items|)
    ensures |PackItems(cfg, done, p, items, |items|)| <= |done| + |cuts| - 1 - j
  {
    NothingHeld(p, kind, items, start, |items|);
  }

  lemma {:induction false} NothingHeld(p: Part, kind: Kind, items: seq<Text>, start: nat, i: nat)
    requires Holds(p, kind, items, start, i)
    ensures start == i ==> Buffer(p) == []
  {
  }

  /** The parts are the groups of `cuts`, without overlap. */
  predicate Groups(parts: seq<Part>, kind: Kind, items: seq<Text>, cuts: seq<nat>) {
    && |cuts| == |parts| + 1 && cuts[0] == 0
    && forall k {:trigger IsGroup(parts[k], kind, items, cuts, k)} ::
         0 <= k < |parts| ==> IsGroup(parts[k], kind, items, cuts, k)
  }

  predicate IsGroup(p: Part, kind: Kind, items: seq<Text>, cuts: seq<nat>, k: nat)
    requires k + 1 < |cuts|
  {
    cuts[k] < cuts[k + 1] <= |items| && Holds(p, kind, items, cuts[k], cuts[k + 1])
  }

  predicate AllFitting(cfg: ChunkConfig, parts: seq<Part>) {
    forall k {:trigger Fitting(cfg, parts[k])} :: 0 <= k < |parts| ==> Fitting(cfg, parts[k])
  }

  /** The parts emitted are groups that fit, and so is the open one, which goes up to the `i`-th item. */
  predicate Grouped(cfg: ChunkConfig, done: seq<Part>, p: Part, kind: Kind, items: seq<Text>, i: nat, cuts: seq<nat>) {
    && Groups(done, kind, items, cuts) && AllFitting(cfg, done)
    && Holds(p, kind, items, cuts[|cuts| - 1], i) && Fitting(cfg, p)
  }

  lemma {:induction false} GroupsAppend(cfg: ChunkConfig, done: seq<Part>, p: Part, kind: Kind, items: seq<Text>,
                                        i: nat, cuts: seq<nat>)
    requires Grouped(cfg, done, p, kind, items, i, cuts) && cuts[|cuts| - 1] < i
    ensures Groups(done + [p], kind, items, cuts + [i]) && AllFitting(cfg, done + [p])
  {
    var parts, cuts' := done + [p], cuts + [i];
    forall k | 0 <= k < |parts|
      ensures IsGroup(parts[k], kind, items, cuts', k) && Fitting(cfg, parts[k])
    {
      if k < |done| {
        assert IsGroup(done[k], kind, items, cuts, k) && Fitting(cfg, done[k]);
      }
    }
  }

  lemma {:induction false} GroupedStep(cfg: ChunkConfig, done: seq<Part>, p: Part, kind: Kind, items: seq<Text>,
                                       i: nat, cuts: seq<nat>)
    returns (done': seq<Part>, p': Part, cuts': seq<nat>)
    requires cfg.overlapSize == 0 && CleanItems(items) && Grouped(cfg, done, p, kind, items, i, cuts) && i < |items|
    ensures Grouped(cfg, done', p', kind, items, i + 1, cuts')
    ensures PackItems(cfg, done, p, items, i) == PackItems(cfg, done', p', items, i + 1)
  {
    var start';
    done', p', start' := Advance(cfg, done, p, kind, items, cuts[|cuts| - 1], i);
    cuts' := cuts;
    if Overflows(cfg, Buffer(p), items[i]) {
      GroupsAppend(cfg, done, p, kind, items, i, cuts);
      cuts' := cuts + [i];
    }
  }

  /** The greedy packer's own parts are groups of the items, in order and without gaps, that fit. */
  lemma {:induction false} GreedyGroups(cfg: ChunkConfig, done: seq<Part>, p: Part, kind: Kind, items: seq<Text>,
                                        i: nat, cuts: seq<nat>, parts: seq<Part>) returns (all: seq<nat>)
    requires cfg.overlapSize == 0 && CleanItems(items) && i <= |items| && Grouped(cfg, done, p, kind, items, i, cuts)
    requires parts == PackItems(cfg, done, p, items, i)
    ensures Groups(parts, kind, items, all) && all[|all| - 1] == |items| && AllFitting(cfg, parts)
    decreases |items| - i
  {
    if i == |items| {
      all := GreedyGroupsAtEnd(cfg, done, p, kind, items, cuts);
    } else {
      var done', p', cuts' := GroupedStep(cfg, done, p, kind, items, i, cuts);
      all := GreedyGroups(cfg, done', p', kind, items, i + 1, cuts', parts);
    }
  }

  lemma {:induction false} GreedyGroupsAtEnd(cfg: ChunkConfig, done: seq<Part>, p: Part, kind: Kind, items: seq<Text>,
                                             cuts: seq<nat>) returns (all: seq<nat>)
    requires CleanItems(items) && Grouped(cfg, done, p, kind, items, |items|, cuts)
    ensures Groups(PackItems(cfg, done, p, items, |items|), kind, items, all) && all[|all| - 1] == |items|
    ensures AllFitting(cfg, PackItems(cfg, done, p, items, |items|))
  {
    all := cuts;
    HeldBuffer(p, kind, items, cuts[|cuts| - 1], |items|);
    if cuts[|cuts| - 1] < |items| {
      GroupsAppend(cfg, done, p, kind, items, |items|, cuts);
      all := cuts + [|items|];
    }
  }

  lemma {:induction false} GroupsFit(cfg: ChunkConfig, parts: seq<Part>, kind: Kind, items: seq<Text>, cuts: seq<nat>)
    requires Groups(parts, kind, items, cuts) && cuts[|cuts| - 1] == |items| && AllFitting(cfg, parts)
    ensures Grouping(cfg, kind, items, cuts)
  {
    forall k | 0 <= k < |cuts| - 1
      ensures GroupFits(cfg, kind, items, cuts, k)
    {
      assert IsGroup(parts[k], kind, items, cuts, k) && Fitting(cfg, parts[k]);
    }
  }

  // --- The sentences of an over-long paragraph ---

  /** With no overlap, the parts of an over-long paragraph are groups of its sentences, in order and
      without gaps, each of a single sentence or within MaxChunkSize. */
  lemma {:induction false} GreedyGrouping(cfg: ChunkConfig, para: Text, n: nat) returns (cuts: seq<nat>)
    requires cfg.overlapSize == 0
    ensures Groups(LongParagraphParts(cfg, para, n), OfSentences(n), Sentences(para), cuts)
    ensures Grouping(cfg, OfSentences(n), Sentences(para), cuts)
  {
    var items, p0 := Sentences(para), Part(OfSentences(n), [], []);
    SentencesClean(para);
    assert items[0..0] == [];
    cuts := GreedyGroups(cfg, [], p0, OfSentences(n), items, 0, [0], LongParagraphParts(cfg, para, n));
    GroupsFit(cfg, LongParagraphParts(cfg, para, n), OfSentences(n), items, cuts);
  }

  /** If every sentence fits, so does every group. */
  lemma {:induction false} FittingSentences(cfg: ChunkConfig, n: nat, items: seq<Text>, cuts: seq<nat>, k: nat)
    requires Grouping(cfg, OfSentences(n), items, cuts) && k < |cuts| - 1
    requires forall m :: 0 <= m < |items| ==> |items[m]| <= cfg.maxChunkSize
    ensures 0 <= cuts[k] < cuts[k + 1] <= |items|
    ensures |Join(items[cuts[k]..cuts[k + 1]], SPACE)| <= cfg.maxChunkSize
  {
    assert GroupFits(cfg, OfSentences(n), items, cuts, k);
    JoinLength(items, SPACE, cuts[k], cuts[k + 1]);
    if cuts[k + 1] == cuts[k] + 1 {
      assert Span(items, 1, cuts[k], cuts[k]) == 0;
    }
  }

  /** Greedy optimality: with no overlap, no order-preserving grouping of an over-long paragraph's sentences,
      each group of a single sentence or within MaxChunkSize, has fewer groups than the packer makes. */
  lemma {:induction false} GreedyIsMinimal(cfg: ChunkConfig, para: Text, n: nat, other: seq<nat>)
    requires cfg.overlapSize == 0 && Grouping(cfg, OfSentences(n), Sentences(para), other)
    ensures |LongParagraphParts(cfg, para, n)| <= |other| - 1
  {
    SentencesClean(para);
    assert Sentences(para)[0..0] == [];
    StaysAhead(cfg, [], Part(OfSentences(n), [], []), OfSentences(n), Sentences(para), 0, 0, other, 0,
               LongParagraphParts(cfg, para, n));
  }

  // --- Paragraphs that all fit ---

  lemma {:induction false} PackItemsCount(cfg: ChunkConfig, done: seq<Part>, p: Part, items: seq<Text>, i: nat)
    requires i <= |items|
    ensures |done| <= |PackItems(cfg, done, p, items, i)| <= |done| + 1 + |items| - i
    decreases |items| - i
  {
    if i < |items| {
      if Overflows(cfg, Buffer(p), items[i]) {
        PackItemsCount(cfg, done + [p], Extend(Successor(cfg, p), items[i]), items, i + 1);
      } else {
        PackItemsCount(cfg, done, Extend(p, items[i]), items, i + 1);
      }
    }
  }

  /** Where every paragraph fits and the cap is not reached, the paragraph packer does with paragraphs what
      the sentence packer does with sentences, at any OverlapSize. */
  lemma {:induction false} PackersAgree(cfg: ChunkConfig, done: seq<Part>, p: Part, paras: seq<Text>, i: nat)
    requires i <= |paras| && (forall j :: 0 <= j < |paras| ==> |paras[j]| <= cfg.maxChunkSize)
    requires |PackItems(cfg, done, p, paras, i)| < cfg.maxChunks
    ensures PackParagraphs(cfg, done, p, paras, i) == PackItems(cfg, done, p, paras, i)
    decreases |paras| - i
  {
    PackItemsCount(cfg, done, p, paras, i);
    if i < |paras| {
      if Overflows(cfg, Buffer(p), paras[i]) {
        var next := Extend(Successor(cfg, p), paras[i]);
        PackItemsCount(cfg, done + [p], next, paras, i + 1);
        PackersAgree(cfg, done + [p], next, paras, i + 1);
      } else {
        PackersAgree(cfg, done, Extend(p, paras[i]), paras, i + 1);
      }
    }
  }

  lemma {:induction false} FittingParts(cfg: ChunkConfig, text: Text)
    requires AllFit(cfg, text)
    ensures AllParts(cfg, text)
         == PackItems(Uncapped(cfg, text), [], Part(OfParagraphs, [], []), Paragraphs(text), 0)
  {
    var big, p0 := Uncapped(cfg, text), Part(OfParagraphs, [], []);
    PackItemsCount(big, [], p0, Paragraphs(text), 0);
    PackersAgree(big, [], p0, Paragraphs(text), 0);
  }

  lemma {:induction false} GroupingUncapped(cfg: ChunkConfig, m: nat, kind: Kind, items: seq<Text>, cuts: seq<nat>)
    ensures Grouping(cfg, kind, items, cuts) <==> Grouping(cfg.(maxChunks := m), kind, items, cuts)
  {
    var big := cfg.(maxChunks := m);
    assert forall k: nat :: k + 1 < |cuts| ==>
      GroupFits(cfg, kind, items, cuts, k) == GroupFits(big, kind, items, cuts, k);
  }

  /** With no overlap and no cap, if every paragraph fits, the parts are groups of the paragraphs, each of a
      single paragraph or within MaxChunkSize + 1 once joined by blank lines. */
  lemma {:induction false} ParagraphGrouping(cfg: ChunkConfig, text: Text) returns (cuts: seq<nat>)
    requires cfg.overlapSize == 0 && AllFit(cfg, text)
    ensures Groups(AllParts(cfg, text), OfParagraphs, Paragraphs(text), cuts)
    ensures Grouping(cfg, OfParagraphs, Paragraphs(text), cuts)
  {
    var big, items := Uncapped(cfg, text), Paragraphs(text);
    ParagraphsClean(text);
    FittingParts(cfg, text);
    assert items[0..0] == [];
    cuts := GreedyGroups(big, [], Part(OfParagraphs, [], []), OfParagraphs, items, 0, [0], AllParts(cfg, text));
    GroupsFit(big, AllParts(cfg, text), OfParagraphs, items, cuts);
    GroupingUncapped(cfg, Ample(cfg, items), OfParagraphs, items, cuts);
  }

  /** And no such grouping of the paragraphs has fewer groups. */
  lemma {:induction false} ParagraphsAreMinimal(cfg: ChunkConfig, text: Text, other: seq<nat>)
    requires cfg.overlapSize == 0 && AllFit(cfg, text) && Grouping(cfg, OfParagraphs, Paragraphs(text), other)
    ensures |AllParts(cfg, text)| <= |other| - 1
  {
    var big, items := Uncapped(cfg, text), Paragraphs(text);
    ParagraphsClean(text);
    FittingParts(cfg, text);
    GroupingUncapped(cfg, Ample(cfg, items), OfParagraphs, items, other);
    assert items[0..0] == [];
    StaysAhead(big, [], Part(OfParagraphs, [], []), OfParagraphs, items, 0, 0, other, 0, AllParts(cfg, text));
  }

  // --- Joining the chunks gives back the sentences ---

  function Contents(parts: seq<Part>): seq<Text> {
    if parts == [] then [] else Contents(parts[..|parts| - 1]) + [Content(parts[|parts| - 1])]
  }

  lemma {:induction false} JoinSnoc(items: seq<Text>, a: nat, b: nat, sep: Text)
    requires a < b <= |items|
    ensures Join(items[a..b], sep) ==
      if a == b - 1 then items[b - 1] else Join(items[a..b - 1], sep) + sep + items[b - 1]
  {
    SliceSnoc(items, a, b);
    JoinAppend(items[a..b - 1], items[b - 1], sep);
  }

  lemma {:induction false} JoinSplit(items: seq<Text>, a: nat, b: nat, sep: Text)
    requires 0 < a < b <= |items|
    ensures Join(items[0..b], sep) == Join(items[0..a], sep) + sep + Join(items[a..b], sep)
  {
    JoinSnoc(items, 0, b, sep);
    JoinSnoc(items, a, b, sep);
    if a < b - 1 {
      JoinSplit(items, a, b - 1, sep);
      Rejoin(Join(items[0..a], sep), sep, Join(items[a..b - 1], sep), items[b - 1]);
    }
  }

  lemma {:induction false} GroupsInit(parts: seq<Part>, kind: Kind, items: seq<Text>, cuts: seq<nat>, n: nat)
    requires Groups(parts, kind, items, cuts) && n < |parts|
    ensures Groups(parts[..n], kind, items, cuts[..n + 1])
  {
    forall k | 0 <= k < n
      ensures IsGroup(parts[..n][k], kind, items, cuts[..n + 1], k)
    {
      assert IsGroup(parts[k], kind, items, cuts, k);
    }
  }

  lemma {:induction false} HeldContent(p: Part, kind: Kind, items: seq<Text>, a: nat, b: nat)
    requires CleanItems(items) && Holds(p, kind, items, a, b) && a < b
    ensures Content(p) == Join(items[a..b], Separator(kind)) != []
  {
    JoinOfCleanItems(items[a..b], Separator(kind));
    TrimOfTrimmed(Buffer(p));
  }

  lemma {:induction false} JoinOfGroups(parts: seq<Part>, kind: Kind, items: seq<Text>, cuts: seq<nat>)
    requires CleanItems(items) && Groups(parts, kind, items, cuts)
    ensures cuts[|cuts| - 1] <= |items| && (parts != [] ==> cuts[|cuts| - 1] > 0)
    ensures Join(Contents(parts), Separator(kind)) == Join(items[..cuts[|cuts| - 1]], Separator(kind))
    ensures |Contents(parts)| == |parts|
  {
    if parts != [] {
      var n := |parts| - 1;
      var init := parts[..n];
      GroupsInit(parts, kind, items, cuts, n);
      JoinOfGroups(init, kind, items, cuts[..n + 1]);
      var a, b := cuts[n], cuts[n + 1];
      assert IsGroup(parts[n], kind, items, cuts, n);
      HeldContent(parts[n], kind, items, a, b);
      JoinAppend(Contents(init), Content(parts[n]), Separator(kind));
      if n > 0 {
        assert items[..b] == items[0..b] && items[..a] == items[0..a];
        JoinSplit(items, a, b, Separator(kind));
      } else {
        assert items[..b] == items[a..b];
      }
    }
  }

  /** With no overlap, joining the chunks of an over-long paragraph with a space gives exactly its
      sentences joined with a space. */
  lemma {:induction false} ChunksRejoin(cfg: ChunkConfig, para: Text, n: nat)
    requires cfg.overlapSize == 0
    ensures Join(Contents(LongParagraphParts(cfg, para, n)), SPACE) == Join(Sentences(para), SPACE)
  {
    SentencesClean(para);
    var cuts := GreedyGrouping(cfg, para, n);
    JoinOfGroups(LongParagraphParts(cfg, para, n), OfSentences(n), Sentences(para), cuts);
    assert Sentences(para)[..|Sentences(para)|] == Sentences(para);
  }
}
