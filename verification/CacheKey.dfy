/** The framing of document and schema behind the result cache's key. */
module CacheKey {

  newtype Byte = b: int | 0 <= b < 256
  type Bytes = seq<Byte>

  const BAR: Byte := 0x7C
  const QUOTE: Byte := 0x22
  const BACKSLASH: Byte := 0x5C
  const SEPARATOR: Bytes := [BAR, BAR]

  /** What is hashed: the document, the separator, and the schema as stored. */
  function Frame(doc: Bytes, schema: Bytes): Bytes {
    doc + SEPARATOR + schema
  }

  // --- The lexical layer of JSON (RFC 8259): strings, and what may stand between them ---

  datatype Mode = Outside | InString | Escaped | Rejected

  /** White space, structural characters, and the characters of numbers and literal names. */
  predicate AllowedOutside(b: Byte) {
    || b in {0x20, 0x09, 0x0A, 0x0D}                           // white space
    || b in {0x7B, 0x7D, 0x5B, 0x5D, 0x3A, 0x2C}               // { } [ ] : ,
    || 0x30 <= b <= 0x39 || b in {0x2B, 0x2D, 0x2E, 0x45}      // digits + - . E
    || b in {0x61, 0x65, 0x66, 0x6C, 0x6E, 0x72, 0x73, 0x74, 0x75} // a e f l n r s t u
  }

  /** The characters that may follow a backslash (section 7); the digits behind a `u` are read as
      ordinary string characters. */
  predicate AllowedEscape(b: Byte) {
    b in {QUOTE, BACKSLASH, 0x2F, 0x62, 0x66, 0x6E, 0x72, 0x74, 0x75}
  }

  function Step(mode: Mode, b: Byte): Mode {
    match mode
    case Outside =>
      if b == QUOTE then InString else if AllowedOutside(b) then Outside else Rejected
    case InString =>
      if b == QUOTE then Outside
      else if b == BACKSLASH then Escaped
      else if b < 0x20 then Rejected
      else InString
    case Escaped =>
      if AllowedEscape(b) then InString else Rejected
    case Rejected =>
      Rejected
  }

  function Run(mode: Mode, s: Bytes): Mode
    decreases |s|
  {
    if s == [] then mode else Run(Step(mode, s[0]), s[1..])
  }

  /** Every JSON text is lexically valid in this sense; the schemas the API lets in are JSON objects. */
  predicate Lexical(s: Bytes) {
    Run(Outside, s) == Outside
  }

  lemma {:induction false} RunConcat(mode: Mode, a: Bytes, b: Bytes)
    ensures Run(mode, a + b) == Run(Run(mode, a), b)
    decreases |a|
  {
    if a == [] {
      assert a + b == b;
    } else {
      assert (a + b)[1..] == a[1..] + b;
      RunConcat(Step(mode, a[0]), a[1..], b);
    }
  }

  lemma {:induction false} RejectedForGood(s: Bytes)
    ensures Run(Rejected, s) == Rejected
  {
    if s != [] {
      RejectedForGood(s[1..]);
    }
  }

  /** Quote parity: no text is valid both from outside a string and from inside one. Read from the two
      modes in step, a quote swaps them, and a backslash is an error for the one that is outside. */
  lemma {:induction false} QuoteParity(s: Bytes)
    ensures !(Run(Outside, s) == Outside && Run(InString, s) == Outside)
  {
    if s != [] {
      var outside, inside := Step(Outside, s[0]), Step(InString, s[0]);
      QuoteParity(s[1..]);
      RejectedForGood(s[1..]);
      assert outside == Rejected || inside == Rejected || {outside, inside} == {Outside, InString};
    }
  }

  /** Two bars inside a lexically valid text can only lie inside a string. */
  lemma {:induction false} SeparatorIsInString(z: Bytes, rest: Bytes)
    requires Lexical(z + SEPARATOR + rest)
    ensures Run(Outside, z) == InString && Run(Outside, z + SEPARATOR) == InString && Run(InString, rest) == Outside
  {
    RunConcat(Outside, z + SEPARATOR, rest);
    RunConcat(Outside, z, SEPARATOR);
    var mode := Run(Outside, z);
    assert SEPARATOR[1..] == [BAR] && [BAR][1..] == [];
    assert Run(mode, SEPARATOR) == Run(Step(mode, BAR), [BAR]) == Run(Step(Step(mode, BAR), BAR), []);
    RejectedForGood(rest);
  }

  // --- When two frames collide ---

  /** The second split of a frame lies `|z| + 2`, or one, byte further on. */
  predicate Shifted(d1: Bytes, s1: Bytes, d2: Bytes, s2: Bytes, z: Bytes) {
    || (s1 == z + SEPARATOR + s2 && d2 == d1 + SEPARATOR + z)
    || (s1 == [BAR] + s2 && d2 == d1 + [BAR])
  }

  /** On arbitrary bytes, two different splits give the same frame exactly when one is the other
      shifted over a separator, or over one bar, in the schema. */
  lemma {:induction false} CollisionShape(d1: Bytes, s1: Bytes, d2: Bytes, s2: Bytes)
    requires |d1| < |d2|
    ensures Frame(d1, s1) == Frame(d2, s2) <==> exists z :: Shifted(d1, s1, d2, s2, z)
  {
    var shift := |d2| - |d1|;
    if Frame(d1, s1) == Frame(d2, s2) {
      var f := Frame(d1, s1);
      assert s1 == f[|d1| + 2..] && s2 == f[|d2| + 2..] && d2 == f[..|d2|];
      assert f[|d1|] == f[|d1| + 1] == f[|d2|] == f[|d2| + 1] == BAR;
      if shift == 1 {
        assert s1 == [BAR] + s2 && d2 == d1 + [BAR];
        assert Shifted(d1, s1, d2, s2, []);
      } else {
        var z := f[|d1| + 2..|d2|];
        assert s1 == z + SEPARATOR + s2 && d2 == d1 + SEPARATOR + z;
        assert Shifted(d1, s1, d2, s2, z);
      }
    }
    if exists z :: Shifted(d1, s1, d2, s2, z) {
      var z :| Shifted(d1, s1, d2, s2, z);
      if s1 == [BAR] + s2 && d2 == d1 + [BAR] {
        assert d1 + SEPARATOR + ([BAR] + s2) == (d1 + [BAR]) + SEPARATOR + s2;
      } else {
        assert d1 + SEPARATOR + (z + SEPARATOR + s2) == (d1 + SEPARATOR + z) + SEPARATOR + s2;
      }
    }
  }

  /** So the framing is not injective on arbitrary bytes. */
  lemma {:induction false} FrameNotInjective() returns (d1: Bytes, s1: Bytes, d2: Bytes, s2: Bytes)
    ensures Frame(d1, s1) == Frame(d2, s2) && d1 != d2 && s1 != s2
  {
    d1, s1, d2, s2 := [], SEPARATOR, SEPARATOR, [];
  }

  /** But it is injective on all documents and all lexically valid schemas. */
  lemma {:induction false} FrameInjective(d1: Bytes, s1: Bytes, d2: Bytes, s2: Bytes)
    requires Lexical(s1) && Lexical(s2)
    requires Frame(d1, s1) == Frame(d2, s2)
    ensures d1 == d2 && s1 == s2
  {
    if |d1| < |d2| {
      NoShift(d1, s1, d2, s2);
    } else if |d2| < |d1| {
      NoShift(d2, s2, d1, s1);
    } else {
      var f := Frame(d1, s1);
      assert d1 == f[..|d1|] && d2 == f[..|d1|];
      assert s1 == f[|d1| + 2..] && s2 == f[|d1| + 2..];
    }
  }

  lemma {:induction false} NoShift(d1: Bytes, s1: Bytes, d2: Bytes, s2: Bytes)
    requires Lexical(s1) && Lexical(s2) && |d1| < |d2|
    ensures Frame(d1, s1) != Frame(d2, s2)
  {
    if Frame(d1, s1) == Frame(d2, s2) {
      CollisionShape(d1, s1, d2, s2);
      var z :| Shifted(d1, s1, d2, s2, z);
      RejectedForGood(s2);
      assert ([BAR] + s2)[1..] == s2;
      assert s1 != [BAR] + s2;
      SeparatorIsInString(z, s2);
      QuoteParity(s2);
      assert false;
    }
  }
}
