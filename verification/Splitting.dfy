/** Splitting a text into paragraphs and a paragraph into sentences. */
module Splitting {
  import opened Sequences
  import opened Runes

  /** A piece, trimmed, unless nothing is left of it. */
  function KeptOne(piece: Text): seq<Text> {
    var trimmed := Trim(piece);
    if trimmed == [] then [] else [trimmed]
  }

  /** The pieces that survive trimming, in order. */
  function Kept(pieces: seq<Text>): seq<Text> {
    if pieces == [] then [] else KeptOne(pieces[0]) + Kept(pieces[1..])
  }

  lemma {:induction false} KeptIsClean(pieces: seq<Text>)
    ensures CleanItems(Kept(pieces))
  {
    if pieces != [] {
      KeptIsClean(pieces[1..]);
    }
  }

  lemma {:induction false} KeptConcat(a: seq<Text>, b: seq<Text>)
    ensures Kept(a + b) == Kept(a) + Kept(b)
  {
    if a == [] {
      assert a + b == b;
    } else {
      assert (a + b)[1..] == a[1..] + b;
      KeptConcat(a[1..], b);
    }
  }

  lemma {:induction false} KeptOneKeepsInk(piece: Text)
    ensures Ink(Flatten(KeptOne(piece))) == Ink(piece)
  {
    TrimKeepsInk(piece);
    if Trim(piece) != [] {
      assert Flatten([Trim(piece)]) == Trim(piece) + Flatten([]) == Trim(piece);
    }
  }

  lemma {:induction false} KeptKeepsInk(pieces: seq<Text>)
    ensures Ink(Flatten(Kept(pieces))) == Ink(Flatten(pieces))
  {
    if pieces != [] {
      var one, rest := KeptOne(pieces[0]), Kept(pieces[1..]);
      KeptOneKeepsInk(pieces[0]);
      KeptKeepsInk(pieces[1..]);
      FlattenConcat(one, rest);
      InkConcat(Flatten(one), Flatten(rest));
      InkConcat(pieces[0], Flatten(pieces[1..]));
    }
  }

  /** Every kept item is the trim of one of the pieces. */
  lemma {:induction false} KeptFrom(pieces: seq<Text>, i: nat) returns (j: nat)
    requires i < |Kept(pieces)|
    ensures j < |pieces| && Kept(pieces)[i] == Trim(pieces[j])
  {
    var one, rest := KeptOne(pieces[0]), Kept(pieces[1..]);
    assert Kept(pieces) == one + rest;
    if i < |one| {
      j := 0;
    } else {
      var j' := KeptFrom(pieces[1..], i - |one|);
      j := j' + 1;
    }
  }

  /** The accumulation step of both splitters. */
  method Keep(kept: seq<Text>, piece: Text) returns (r: seq<Text>)
    ensures r == kept + KeptOne(piece)
  {
    var trimmed := Trim(piece);
    r := if trimmed != [] then kept + [trimmed] else kept;
  }

  // --- Sentences ---

  /** A sentence ends at a terminator followed by white space, an upper case letter or nothing. */
  predicate CutAt(t: Text, i: nat)
    requires i < |t|
  {
    IsTerminator(t[i]) && (i + 1 >= |t| || IsSpace(t[i + 1]) || t[i + 1].Upper?)
  }

  predicate NoCut(t: Text, lo: nat, hi: nat)
    requires hi <= |t|
  {
    forall i :: lo <= i < hi ==> !CutAt(t, i)
  }

  function FirstCut(t: Text, from: nat): (k: nat)
    requires from <= |t|
    ensures from <= k <= |t| && NoCut(t, from, k)
    ensures k < |t| ==> CutAt(t, k)
    decreases |t| - from
  {
    if from == |t| || CutAt(t, from) then from else FirstCut(t, from + 1)
  }

  /** The text cut after every sentence end. */
  function Pieces(t: Text): seq<Text> {
    if t == [] then []
    else
      var k := FirstCut(t, 0);
      if k == |t| then [t] else [t[..k + 1]] + Pieces(t[k + 1..])
  }

  lemma {:induction false} PiecesFlatten(t: Text)
    ensures Flatten(Pieces(t)) == t
  {
    if t != [] {
      var k := FirstCut(t, 0);
      if k == |t| {
        assert Flatten([t]) == t + Flatten([]) == t;
      } else {
        PiecesFlatten(t[k + 1..]);
      }
    }
  }

  function Sentences(t: Text): seq<Text> {
    Kept(Pieces(t))
  }

  lemma {:induction false} PiecesAt(t: Text, k: nat)
    requires k < |t| && NoCut(t, 0, k) && CutAt(t, k)
    ensures Pieces(t) == [t[..k + 1]] + Pieces(t[k + 1..])
  {
    var f := FirstCut(t, 0);
    assert f == k;
  }

  lemma {:induction false} PiecesUncut(t: Text)
    requires NoCut(t, 0, |t|)
    ensures Pieces(t) == if t == [] then [] else [t]
  {
  }

  lemma {:induction false} CutsOfSuffix(t: Text, start: nat, hi: nat)
    requires start <= hi <= |t| && NoCut(t, start, hi)
    ensures NoCut(t[start..], 0, hi - start)
    ensures hi < |t| ==> CutAt(t[start..], hi - start) == CutAt(t, hi)
  {
    forall j | 0 <= j < hi - start
      ensures !CutAt(t[start..], j)
    {
      assert !CutAt(t, start + j);
    }
  }

  /** The sentences that start at or after a position reached by the scan. */
  function SentencesFrom(t: Text, start: nat): seq<Text>
    requires start <= |t|
  {
    Kept(Pieces(t[start..]))
  }

  lemma {:induction false} PiecesFrom(t: Text, start: nat, i: nat)
    requires start <= i < |t| && NoCut(t, start, i) && CutAt(t, i)
    ensures Pieces(t[start..]) == [t[start..i + 1]] + Pieces(t[i + 1..])
  {
    var rest := t[start..];
    CutsOfSuffix(t, start, i);
    PiecesAt(rest, i - start);
    assert rest[..i - start + 1] == t[start..i + 1];
    assert rest[i - start + 1..] == t[i + 1..];
  }

  lemma {:induction false} ScanCut(t: Text, start: nat, i: nat)
    requires start <= i < |t| && NoCut(t, start, i) && CutAt(t, i)
    ensures SentencesFrom(t, start) == KeptOne(t[start..i + 1]) + SentencesFrom(t, i + 1)
  {
    PiecesFrom(t, start, i);
    var piece, later := t[start..i + 1], Pieces(t[i + 1..]);
    assert ([piece] + later)[0] == piece && ([piece] + later)[1..] == later;
  }

  lemma {:induction false} ScanEnd(t: Text, start: nat)
    requires start <= |t| && NoCut(t, start, |t|)
    ensures SentencesFrom(t, start) == KeptOne(t[start..])
  {
    CutsOfSuffix(t, start, |t|);
    var rest := t[start..];
    PiecesUncut(rest);
    assert KeptOne([]) == [];
    assert rest != [] ==> Kept([rest]) == KeptOne(rest) + Kept([]);
  }

  /** The scan itself: the sentences found, given those already found and the characters read
      since the last sentence end. */
  function Scan(t: Text, i: nat, current: Text, found: seq<Text>): seq<Text>
    requires i <= |t|
    decreases |t| - i
  {
    if i == |t| then found + KeptOne(current)
    else
      var current' := current + [t[i]];
      if CutAt(t, i) then Scan(t, i + 1, [], found + KeptOne(current'))
      else Scan(t, i + 1, current', found)
  }

  lemma {:induction false} ScanSplits(t: Text, start: nat, i: nat, current: Text, found: seq<Text>)
    requires start <= i <= |t| && NoCut(t, start, i) && current == t[start..i]
    ensures Scan(t, i, current, found) == found + SentencesFrom(t, start)
    decreases |t| - i
  {
    if i == |t| {
      ScanEnd(t, start);
      assert current == t[start..];
    } else {
      SliceExtend(t, start, i);
      if CutAt(t, i) {
        ScanCut(t, start, i);
        ScanSplitsAtCut(t, i, found, KeptOne(current + [t[i]]), SentencesFrom(t, start));
      } else {
        ScanSplits(t, start, i + 1, current + [t[i]], found);
      }
    }
  }

  lemma {:induction false} ScanSplitsAtCut(t: Text, i: nat, found: seq<Text>, one: seq<Text>, whole: seq<Text>)
    requires i < |t| && whole == one + SentencesFrom(t, i + 1)
    ensures Scan(t, i + 1, [], found + one) == found + whole
    decreases |t| - i, 0
  {
    ScanSplits(t, i + 1, i + 1, [], found + one);
    Assoc(found, one, SentencesFrom(t, i + 1));
  }

  method SplitSentences(text: Text) returns (sentences: seq<Text>)
    ensures sentences == Sentences(text)
  {
    sentences := [];
    var current: Text := [];
    for i := 0 to |text|
      invariant Scan(text, i, current, sentences) == Scan(text, 0, [], [])
    {
      current := current + [text[i]];
      if IsTerminator(text[i]) {
        if i + 1 >= |text| || IsSpace(text[i + 1]) || text[i + 1].Upper? {
          sentences := Keep(sentences, current);
          current := [];
        }
      }
    }
    sentences := Keep(sentences, current);
    assert text[0..] == text;
    ScanSplits(text, 0, 0, [], []);
  }

  /** No sentence end before the last character. */
  predicate Unsplit(s: Text) {
    NoCut(s, 0, if s == [] then 0 else |s| - 1)
  }

  lemma {:induction false} PiecesUnsplit(t: Text, i: nat)
    requires i < |Pieces(t)|
    ensures Unsplit(Pieces(t)[i])
  {
    var k := FirstCut(t, 0);
    if k < |t| {
      var piece := t[..k + 1];
      if i == 0 {
        forall j | 0 <= j < k
          ensures !CutAt(piece, j)
        {
          assert !CutAt(t, j);
        }
      } else {
        PiecesUnsplit(t[k + 1..], i - 1);
      }
    }
  }

  lemma {:induction false} TrimUnsplit(p: Text)
    requires Unsplit(p)
    ensures Unsplit(Trim(p))
  {
    var lo, hi := TrimIsSlice(p);
    var t := Trim(p);
    forall j | 0 <= j < |t| - 1
      ensures !CutAt(t, j)
    {
      assert !CutAt(p, lo + j);
    }
  }

  lemma {:induction false} SentencesClean(t: Text)
    ensures CleanItems(Sentences(t)) && Ink(Flatten(Sentences(t))) == Ink(t)
  {
    KeptKeepsInk(Pieces(t));
    PiecesFlatten(t);
    KeptIsClean(Pieces(t));
  }

  /** Splitting into sentences is canonical: it keeps the ink in order, it leaves no sentence end
      inside a sentence, and splitting a produced sentence again gives it back whole. */
  lemma {:induction false} SentencesCanonical(t: Text)
    ensures CleanItems(Sentences(t)) && Ink(Flatten(Sentences(t))) == Ink(t)
    ensures forall i :: 0 <= i < |Sentences(t)| ==>
      Unsplit(Sentences(t)[i]) && Sentences(Sentences(t)[i]) == [Sentences(t)[i]]
  {
    SentencesClean(t);
    forall i | 0 <= i < |Sentences(t)|
      ensures Unsplit(Sentences(t)[i]) && Sentences(Sentences(t)[i]) == [Sentences(t)[i]]
    {
      var j := KeptFrom(Pieces(t), i);
      PiecesUnsplit(t, j);
      TrimUnsplit(Pieces(t)[j]);
      UnsplitIsOneSentence(Sentences(t)[i]);
    }
  }

  /** The converse holds too: a trimmed text is its own only sentence exactly when no sentence end
      lies inside it. */
  lemma {:induction false} UnsplitIsOneSentence(s: Text)
    requires s != [] && Trimmed(s)
    ensures Unsplit(s) <==> Sentences(s) == [s]
  {
    TrimOfTrimmed(s);
    if Unsplit(s) {
      if CutAt(s, |s| - 1) {
        PiecesAt(s, |s| - 1);
        assert s[..|s|] == s && s[|s|..] == [];
      } else {
        PiecesUncut(s);
      }
      assert Pieces(s) == [s];
      assert Kept([s]) == KeptOne(s) + Kept([]);
    } else if Sentences(s) == [s] {
      var j := KeptFrom(Pieces(s), 0);
      PiecesUnsplit(s, j);
      TrimUnsplit(Pieces(s)[j]);
      assert false;
    }
  }

  /** A sentence ends between two neighbouring characters: behind a full stop, an exclamation or a question
      mark, and before white space or an upper case letter. */
  predicate EndsBetween(a: Rune, b: Rune) {
    (a.Dot? || a.Bang? || a.Question?) && (b.Newline? || b.Space? || b.White? || b.Upper?)
  }

  lemma {:induction false} KeptExactly(a: seq<Text>, p: Text)
    ensures Kept([]) == [] && Kept(a + [p]) == Kept(a) + (if Trim(p) == [] then [] else [Trim(p)])
  {
    KeptConcat(a, [p]);
    assert Kept([p]) == KeptOne(p) + Kept([]);
  }

  lemma {:induction false} PiecesNonEmpty(t: Text, i: nat)
    requires i < |Pieces(t)|
    ensures Pieces(t)[i] != []
  {
    var k := FirstCut(t, 0);
    if k < |t| && i > 0 {
      PiecesNonEmpty(t[k + 1..], i - 1);
    }
  }

  lemma {:induction false} PiecesWithin(t: Text, i: nat, j: nat)
    requires i < |Pieces(t)| && j + 1 < |Pieces(t)[i]|
    ensures !EndsBetween(Pieces(t)[i][j], Pieces(t)[i][j + 1])
  {
    PiecesUnsplit(t, i);
    assert !CutAt(Pieces(t)[i], j);
  }

  lemma {:induction false} PiecesMeet(t: Text, i: nat)
    requires i + 1 < |Pieces(t)|
    ensures Pieces(t)[i] != [] && Pieces(t)[i + 1] != []
    ensures var p, q := Pieces(t)[i], Pieces(t)[i + 1]; EndsBetween(p[|p| - 1], q[0])
  {
    PiecesNonEmpty(t, i);
    PiecesNonEmpty(t, i + 1);
    var k := FirstCut(t, 0);
    var rest := t[k + 1..];
    if i == 0 {
      PiecesFlatten(rest);
      assert Pieces(rest)[0] <= Flatten(Pieces(rest));
    } else {
      PiecesMeet(rest, i - 1);
    }
  }

  /** Sentences, exactly: the text is cut into pieces that make it up again, between two characters where a
      sentence ends and nowhere else, and the sentences are the pieces, trimmed, that are not blank. */
  lemma {:induction false} SentencesExactly(t: Text) returns (pieces: seq<Text>)
    ensures Flatten(pieces) == t && Sentences(t) == Kept(pieces)
    ensures forall i :: 0 <= i < |pieces| ==> pieces[i] != []
    ensures forall i, j :: 0 <= i < |pieces| && 0 <= j && j + 1 < |pieces[i]| ==>
      !EndsBetween(pieces[i][j], pieces[i][j + 1])
    ensures forall i :: 0 <= i && i + 1 < |pieces| ==>
      EndsBetween(pieces[i][|pieces[i]| - 1], pieces[i + 1][0])
  {
    pieces := Pieces(t);
    PiecesFlatten(t);
    forall i | 0 <= i < |pieces|
      ensures pieces[i] != []
    {
      PiecesNonEmpty(t, i);
    }
    forall i, j | 0 <= i < |pieces| && 0 <= j && j + 1 < |pieces[i]|
      ensures !EndsBetween(pieces[i][j], pieces[i][j + 1])
    {
      PiecesWithin(t, i, j);
    }
    forall i | 0 <= i && i + 1 < |pieces|
      ensures EndsBetween(pieces[i][|pieces[i]| - 1], pieces[i + 1][0])
    {
      PiecesMeet(t, i);
    }
  }

  // --- Paragraphs ---

  const BLANK_LINE: Text := [Newline, Newline]

  predicate BreakAt(t: Text, i: nat)
    requires i + 1 < |t|
  {
    t[i].Newline? && t[i + 1].Newline?
  }

  predicate NoBreak(t: Text, hi: nat)
    requires hi <= |t|
  {
    forall i :: 0 <= i && i + 1 < hi ==> !BreakAt(t, i)
  }

  /** The position of the first blank line, or the length of the text. */
  function FirstBreak(t: Text, from: nat): (k: nat)
    requires from <= |t|
    requires from + 1 < |t| ==> NoBreak(t, from + 1)
    requires from + 1 >= |t| ==> NoBreak(t, |t|)
    ensures k == |t| || k + 1 < |t|
    ensures k < |t| ==> BreakAt(t, k) && NoBreak(t, k + 1)
    ensures k == |t| ==> NoBreak(t, |t|)
    decreases |t| - from
  {
    if from + 1 >= |t| then |t|
    else if BreakAt(t, from) then from
    else FirstBreak(t, from + 1)
  }

  /** `strings.Split(t, "\n\n")`. */
  function Split(t: Text): (ps: seq<Text>) {
    var k := FirstBreak(t, 0);
    if k == |t| then [t] else [t[..k]] + Split(t[k + 2..])
  }

  function Paragraphs(t: Text): seq<Text> {
    Kept(Split(t))
  }

  method SplitParagraphs(text: Text) returns (paragraphs: seq<Text>)
    ensures paragraphs == Paragraphs(text)
  {
    var raw := Split(text);
    paragraphs := [];
    for i := 0 to |raw|
      invariant paragraphs == Kept(raw[..i])
    {
      assert raw[..i + 1] == raw[..i] + [raw[i]];
      KeptConcat(raw[..i], [raw[i]]);
      assert Kept([raw[i]]) == KeptOne(raw[i]) + Kept([]);
      paragraphs := Keep(paragraphs, raw[i]);
    }
    assert raw[..|raw|] == raw;
  }

  lemma {:induction false} SplitKeepsInk(t: Text)
    ensures Ink(Flatten(Split(t))) == Ink(t)
  {
    var k := FirstBreak(t, 0);
    if k < |t| {
      var rest := t[k + 2..];
      SplitKeepsInk(rest);
      assert t == t[..k] + (t[k..k + 2] + rest);
      InkConcat(t[..k], t[k..k + 2] + rest);
      InkConcat(t[k..k + 2], rest);
      InkOfSpaces(t[k..k + 2]);
      InkConcat(t[..k], Flatten(Split(rest)));
    } else {
      assert Flatten([t]) == t;
    }
  }

  lemma {:induction false} SplitUnbroken(t: Text, i: nat)
    requires i < |Split(t)|
    ensures NoBreak(Split(t)[i], |Split(t)[i]|)
  {
    var k := FirstBreak(t, 0);
    if k < |t| {
      if i == 0 {
        forall j | 0 <= j && j + 1 < k
          ensures !BreakAt(t[..k], j)
        {
          assert !BreakAt(t, j);
        }
      } else {
        SplitUnbroken(t[k + 2..], i - 1);
      }
    }
  }

  lemma {:induction false} UnbrokenIsOneParagraph(p: Text)
    requires p != [] && Trimmed(p) && NoBreak(p, |p|)
    ensures Paragraphs(p) == [p]
  {
    TrimOfTrimmed(p);
    assert Split(p) == [p];
    assert Kept([p]) == KeptOne(p) + Kept([]);
  }

  lemma {:induction false} TrimUnbroken(p: Text)
    requires NoBreak(p, |p|)
    ensures NoBreak(Trim(p), |Trim(p)|)
  {
    var lo, hi := TrimIsSlice(p);
    var t := Trim(p);
    forall m | 0 <= m && m + 1 < |t|
      ensures !BreakAt(t, m)
    {
      assert !BreakAt(p, lo + m);
    }
  }

  lemma {:induction false} ParagraphsClean(t: Text)
    ensures CleanItems(Paragraphs(t)) && Ink(Flatten(Paragraphs(t))) == Ink(t)
  {
    KeptKeepsInk(Split(t));
    SplitKeepsInk(t);
    KeptIsClean(Split(t));
  }

  /** Two newlines in a row. */
  predicate HasBlankLine(t: Text) {
    exists i :: 0 <= i && i + 1 < |t| && t[i] == Newline && t[i + 1] == Newline
  }

  /** The pieces, put together again with a blank line between them. */
  function Rejoined(pieces: seq<Text>): Text {
    if pieces == [] then []
    else if |pieces| == 1 then pieces[0]
    else pieces[0] + [Newline, Newline] + Rejoined(pieces[1..])
  }

  lemma {:induction false} SplitNonEmpty(t: Text)
    ensures Split(t) != []
  {
  }

  lemma {:induction false} SplitRejoined(t: Text)
    ensures Rejoined(Split(t)) == t
  {
    var k := FirstBreak(t, 0);
    if k < |t| {
      var rest := t[k + 2..];
      SplitRejoined(rest);
      SplitNonEmpty(rest);
      assert Split(t)[1..] == Split(rest);
      assert t == t[..k] + [Newline, Newline] + rest;
    }
  }

  lemma {:induction false} SplitFirst(t: Text, i: nat)
    requires i < |Split(t)|
    ensures !HasBlankLine(if i + 1 < |Split(t)| then Split(t)[i] + [Newline] else Split(t)[i])
  {
    var k := FirstBreak(t, 0);
    if k < |t| {
      if i == 0 {
        SplitNonEmpty(t[k + 2..]);
        var p := t[..k] + [Newline];
        forall j | 0 <= j && j + 1 < |p|
          ensures !(p[j] == Newline && p[j + 1] == Newline)
        {
          assert !BreakAt(t, j);
        }
      } else {
        SplitFirst(t[k + 2..], i - 1);
      }
    } else {
      assert NoBreak(t, |t|);
      forall j | 0 <= j && j + 1 < |t|
        ensures !(t[j] == Newline && t[j + 1] == Newline)
      {
        assert !BreakAt(t, j);
      }
    }
  }

  /** Paragraphs, exactly: the text is its pieces with a blank line between each two, cut at the first blank
      line there is every time, and the paragraphs are the pieces, trimmed, that are not blank. */
  lemma {:induction false} ParagraphsExactly(t: Text) returns (pieces: seq<Text>)
    ensures Rejoined(pieces) == t && Paragraphs(t) == Kept(pieces) && pieces != []
    ensures forall i :: 0 <= i < |pieces| ==>
      !HasBlankLine(if i + 1 < |pieces| then pieces[i] + [Newline] else pieces[i])
  {
    pieces := Split(t);
    SplitRejoined(t);
    SplitNonEmpty(t);
    forall i | 0 <= i < |pieces|
      ensures !HasBlankLine(if i + 1 < |pieces| then pieces[i] + [Newline] else pieces[i])
    {
      SplitFirst(t, i);
    }
  }

  /** Splitting into paragraphs is canonical in the same way: no ink is lost, and no paragraph
      holds a blank line, so that splitting it again gives it back whole. */
  lemma {:induction false} ParagraphsCanonical(t: Text)
    ensures CleanItems(Paragraphs(t)) && Ink(Flatten(Paragraphs(t))) == Ink(t)
    ensures forall i :: 0 <= i < |Paragraphs(t)| ==>
      var p := Paragraphs(t)[i]; NoBreak(p, |p|) && Paragraphs(p) == [p]
  {
    ParagraphsClean(t);
    var ps := Paragraphs(t);
    forall i | 0 <= i < |ps|
      ensures NoBreak(ps[i], |ps[i]|) && Paragraphs(ps[i]) == [ps[i]]
    {
      var j := KeptFrom(Split(t), i);
      SplitUnbroken(t, j);
      TrimUnbroken(Split(t)[j]);
      UnbrokenIsOneParagraph(ps[i]);
    }
  }

  /** A text without newlines, in front of a blank line, is a paragraph of its own. */
  lemma {:induction false} FirstParagraph(a: Text, rest: Text)
    requires a != [] && Trimmed(a) && forall i :: 0 <= i < |a| ==> !a[i].Newline?
    ensures Paragraphs(a + BLANK_LINE + rest) == [a] + Paragraphs(rest)
  {
    var t := a + BLANK_LINE + rest;
    assert BreakAt(t, |a|);
    assert NoBreak(t, |a| + 1) by {
      assert forall i :: 0 <= i < |a| ==> t[i] == a[i];
    }
    FirstBreakAt(t, 0, |a|);
    assert t[..|a|] == a && t[|a| + 2..] == rest;
    TrimOfTrimmed(a);
    assert ([a] + Split(rest))[1..] == Split(rest);
  }

  lemma {:induction false} FirstBreakAt(t: Text, from: nat, k: nat)
    requires from <= k && k + 1 < |t| && BreakAt(t, k) && NoBreak(t, k + 1)
    ensures FirstBreak(t, from) == k
    decreases k - from
  {
    if from < k {
      FirstBreakAt(t, from + 1, k);
    }
  }

  /** Two texts without newlines, put one blank line apart, are two paragraphs. */
  lemma {:induction false} TwoParagraphs(a: Text, b: Text)
    requires CleanItems([a, b])
    requires forall i :: 0 <= i < |a| ==> !a[i].Newline?
    requires forall i :: 0 <= i < |b| ==> !b[i].Newline?
    ensures Paragraphs(a + BLANK_LINE + b) == [a, b]
  {
    assert [a, b][0] == a && [a, b][1] == b;
    FirstParagraph(a, b);
    UnbrokenIsOneParagraph(b);
  }
}
