/** The text alphabet of the chunker, and the string operations it relies on. */
module Runes {

  /** One character, classified by what the chunker can tell about it: the two spaces it writes
      itself, the other white space that `unicode.IsSpace` accepts, the sentence terminators, upper
      case letters, and everything else. */
  datatype Rune =
    | Newline
    | Space
    | White(code: nat)
    | Dot
    | Bang
    | Question
    | Upper(code: nat)
    | Other(code: nat)

  type Text = seq<Rune>

  predicate IsSpace(r: Rune) {
    r.Newline? || r.Space? || r.White?
  }

  predicate IsTerminator(r: Rune) {
    r.Dot? || r.Bang? || r.Question?
  }

  // --- Trimming ---

  predicate AllSpaces(s: Text, lo: nat, hi: nat)
    requires hi <= |s|
  {
    forall i :: lo <= i < hi ==> IsSpace(s[i])
  }

  /** The position of the first character at or after `i` that is not white space. */
  function SkipSpaces(s: Text, i: nat): (k: nat)
    requires i <= |s|
    ensures i <= k <= |s|
    ensures k < |s| ==> !IsSpace(s[k])
    decreases |s| - i
  {
    if i == |s| || !IsSpace(s[i]) then i else SkipSpaces(s, i + 1)
  }

  /** The end of `s[lo..hi]` once the white space at its end is dropped. */
  function BackOverSpaces(s: Text, lo: nat, hi: nat): (k: nat)
    requires lo <= hi <= |s|
    ensures lo <= k <= hi
    ensures lo < k ==> !IsSpace(s[k - 1])
  {
    if lo == hi || !IsSpace(s[hi - 1]) then hi else BackOverSpaces(s, lo, hi - 1)
  }

  /** `strings.TrimSpace`. */
  function Trim(s: Text): (t: Text)
    ensures Trimmed(t)
  {
    var lo := SkipSpaces(s, 0);
    s[lo..BackOverSpaces(s, lo, |s|)]
  }

  predicate Trimmed(s: Text) {
    s != [] ==> !IsSpace(s[0]) && !IsSpace(s[|s| - 1])
  }

  lemma {:induction false} SkippedSpaces(s: Text, i: nat)
    requires i <= |s|
    ensures AllSpaces(s, i, SkipSpaces(s, i))
    decreases |s| - i
  {
    if i < |s| && IsSpace(s[i]) {
      SkippedSpaces(s, i + 1);
    }
  }

  lemma {:induction false} DroppedSpaces(s: Text, lo: nat, hi: nat)
    requires lo <= hi <= |s|
    ensures AllSpaces(s, BackOverSpaces(s, lo, hi), hi)
  {
    if lo < hi && IsSpace(s[hi - 1]) {
      DroppedSpaces(s, lo, hi - 1);
    }
  }

  /** A trimmed text is a slice of the original with only white space on either side of it. */
  lemma {:induction false} TrimIsSlice(s: Text) returns (lo: nat, hi: nat)
    ensures lo <= hi <= |s| && Trim(s) == s[lo..hi]
    ensures AllSpaces(s, 0, lo) && AllSpaces(s, hi, |s|)
  {
    lo := SkipSpaces(s, 0);
    hi := BackOverSpaces(s, lo, |s|);
    SkippedSpaces(s, 0);
    DroppedSpaces(s, lo, |s|);
  }

  lemma {:induction false} TrimOfTrimmed(s: Text)
    requires Trimmed(s)
    ensures Trim(s) == s
  {
  }

  lemma {:induction false} SliceExtend(s: Text, lo: nat, hi: nat)
    requires lo <= hi < |s|
    ensures s[lo..hi] + [s[hi]] == s[lo..hi + 1]
  {
  }

  // --- Ink: what is left of a text when white space is ignored ---

  function Ink(s: Text): (t: Text) {
    if s == [] then [] else (if IsSpace(s[0]) then [] else [s[0]]) + Ink(s[1..])
  }

  lemma {:induction false} InkConcat(a: Text, b: Text)
    ensures Ink(a + b) == Ink(a) + Ink(b)
  {
    if a == [] {
      assert a + b == b;
    } else {
      assert (a + b)[1..] == a[1..] + b;
      InkConcat(a[1..], b);
    }
  }

  lemma {:induction false} InkOfSpaces(s: Text)
    ensures Ink(s) == [] <==> AllSpaces(s, 0, |s|)
  {
    if s != [] {
      var t := s[1..];
      InkOfSpaces(t);
      assert forall i :: 0 <= i < |t| ==> t[i] == s[i + 1];
      if AllSpaces(t, 0, |t|) {
        assert forall i :: 1 <= i < |s| ==> s[i] == t[i - 1];
      }
    }
  }

  /** Ink, character by character: white space leaves nothing, and every other character itself. */
  lemma {:induction false} InkExactly(r: Rune)
    ensures Ink([r]) == if r.Newline? || r.Space? || r.White? then [] else [r]
  {
    assert [r][1..] == [];
    assert Ink([]) == [];
  }

  /** Trimming loses no ink, and leaves nothing only when there was none. */
  lemma {:induction false} TrimKeepsInk(s: Text)
    ensures Ink(Trim(s)) == Ink(s)
    ensures Trim(s) == [] <==> Ink(s) == []
  {
    var lo, hi := TrimIsSlice(s);
    var a, b, c := s[..lo], s[lo..hi], s[hi..];
    assert s == a + (b + c);
    InkConcat(a, b + c);
    InkConcat(b, c);
    InkOfSpaces(a);
    InkOfSpaces(c);
    if b != [] {
      assert Ink(b)[0] == b[0];
    }
  }

  // --- Lists of texts ---

  function Flatten(xs: seq<Text>): Text {
    if xs == [] then [] else xs[0] + Flatten(xs[1..])
  }

  lemma {:induction false} FlattenConcat(a: seq<Text>, b: seq<Text>)
    ensures Flatten(a + b) == Flatten(a) + Flatten(b)
  {
    if a == [] {
      assert a + b == b;
    } else {
      assert (a + b)[1..] == a[1..] + b;
      FlattenConcat(a[1..], b);
    }
  }

  /** `strings.Join`, built the way a buffer grows: one item at a time at the end. */
  function Join(xs: seq<Text>, sep: Text): Text {
    if xs == [] then []
    else if |xs| == 1 then xs[0]
    else Join(xs[..|xs| - 1], sep) + sep + xs[|xs| - 1]
  }

  lemma {:induction false} JoinAppend(xs: seq<Text>, x: Text, sep: Text)
    ensures Join(xs + [x], sep) == if xs == [] then x else Join(xs, sep) + sep + x
  {
    assert (xs + [x])[..|xs|] == xs;
  }

  /** Every item is a non-empty trimmed text, as both splitters return them. */
  predicate CleanItems(xs: seq<Text>) {
    forall i :: 0 <= i < |xs| ==> xs[i] != [] && Trimmed(xs[i])
  }

  lemma {:induction false} JoinOfCleanItems(xs: seq<Text>, sep: Text)
    requires CleanItems(xs) && xs != []
    ensures Join(xs, sep) != [] && Trimmed(Join(xs, sep))
  {
    if |xs| > 1 {
      JoinOfCleanItems(xs[..|xs| - 1], sep);
    }
  }
}
