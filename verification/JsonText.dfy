/** JSON texts by their grammar (RFC 8259), and what they look like to the lexical layer. */
module JsonText {
  import opened CacheKey

  // --- The grammar ---

  /** A character of a string: itself, a backslash and one of eight characters, or `\u` and four digits. */
  datatype Char = Plain(b: Byte) | Escape(b: Byte) | Unicode(digits: Bytes)

  datatype Exponent = Exponent(e: Byte, sign: Bytes, digits: Bytes)

  datatype Value =
    | Null
    | True
    | False
    | Number(minus: bool, whole: Bytes, fraction: Bytes, exponent: seq<Exponent>)
    | Text(chars: seq<Char>)
    | Array(space: Bytes, elements: Elements)
    | Object(space: Bytes, members: Members)

  /** The elements of an array, each with the white space on either side of it. */
  datatype Elements = NoElements | Element(before: Bytes, value: Value, after: Bytes, rest: Elements)

  /** The members of an object: name and value, each with the white space on either side of it. */
  datatype Members =
    | NoMembers
    | Member(before: Bytes, name: seq<Char>, afterName: Bytes, beforeValue: Bytes, value: Value, after: Bytes,
        rest: Members)

  predicate IsWhite(b: Byte) {
    b == 0x20 || b == 0x09 || b == 0x0A || b == 0x0D
  }

  predicate IsDigit(b: Byte) {
    0x30 <= b <= 0x39
  }

  predicate IsHex(b: Byte) {
    IsDigit(b) || 0x41 <= b <= 0x46 || 0x61 <= b <= 0x66
  }

  predicate Whites(s: Bytes) {
    forall i :: 0 <= i < |s| ==> IsWhite(s[i])
  }

  predicate Digits(s: Bytes) {
    forall i :: 0 <= i < |s| ==> IsDigit(s[i])
  }

  /** Section 7: everything but the quotation mark, the backslash and control characters stands for itself. */
  predicate ValidChar(c: Char) {
    match c
    case Plain(b) => b >= 0x20 && b != 0x22 && b != 0x5C
    case Escape(b) => b in [0x22, 0x5C, 0x2F, 0x62, 0x66, 0x6E, 0x72, 0x74]
    case Unicode(digits) => |digits| == 4 && forall i :: 0 <= i < 4 ==> IsHex(digits[i])
  }

  predicate ValidChars(cs: seq<Char>) {
    forall i :: 0 <= i < |cs| ==> ValidChar(cs[i])
  }

  /** Section 6. */
  predicate ValidExponent(x: Exponent) {
    && (x.e == 0x65 || x.e == 0x45) && (x.sign == [] || x.sign == [0x2B] || x.sign == [0x2D])
    && x.digits != [] && Digits(x.digits)
  }

  predicate Valid(v: Value) {
    match v
    case Number(_, whole, fraction, exponent) =>
      && whole != [] && Digits(whole) && (|whole| > 1 ==> whole[0] != 0x30) && Digits(fraction)
      && |exponent| <= 1 && (exponent != [] ==> ValidExponent(exponent[0]))
    case Text(chars) => ValidChars(chars)
    case Array(space, elements) => Whites(space) && ValidElements(elements)
    case Object(space, members) => Whites(space) && ValidMembers(members)
    case _ => true
  }

  predicate ValidElements(es: Elements) {
    es.Element? ==> Whites(es.before) && Valid(es.value) && Whites(es.after) && ValidElements(es.rest)
  }

  predicate ValidMembers(ms: Members) {
    ms.Member? ==>
      && Whites(ms.before) && ValidChars(ms.name) && Whites(ms.afterName) && Whites(ms.beforeValue)
      && Valid(ms.value) && Whites(ms.after) && ValidMembers(ms.rest)
  }

  // --- Writing it out ---

  function CharBytes(c: Char): Bytes {
    match c
    case Plain(b) => [b]
    case Escape(b) => [0x5C, b]
    case Unicode(digits) => [0x5C, 0x75] + digits
  }

  function CharsBytes(cs: seq<Char>): Bytes {
    if cs == [] then [] else CharsBytes(cs[..|cs| - 1]) + CharBytes(cs[|cs| - 1])
  }

  function Quoted(cs: seq<Char>): Bytes {
    [0x22] + CharsBytes(cs) + [0x22]
  }

  function ExponentBytes(x: Exponent): Bytes {
    [x.e] + x.sign + x.digits
  }

  function NumberBytes(minus: bool, whole: Bytes, fraction: Bytes, exponent: seq<Exponent>): Bytes {
    (if minus then [0x2D] else []) + whole + (if fraction == [] then [] else [0x2E] + fraction)
    + (if exponent == [] then [] else ExponentBytes(exponent[0]))
  }

  function Written(v: Value): Bytes {
    match v
    case Null => [0x6E, 0x75, 0x6C, 0x6C]
    case True => [0x74, 0x72, 0x75, 0x65]
    case False => [0x66, 0x61, 0x6C, 0x73, 0x65]
    case Number(minus, whole, fraction, exponent) => NumberBytes(minus, whole, fraction, exponent)
    case Text(chars) => Quoted(chars)
    case Array(space, elements) => [0x5B] + (if elements.NoElements? then space else WrittenElements(elements)) + [0x5D]
    case Object(space, members) => [0x7B] + (if members.NoMembers? then space else WrittenMembers(members)) + [0x7D]
  }

  function WrittenElements(es: Elements): Bytes {
    if es.NoElements? then []
    else
      var first := es.before + Written(es.value) + es.after;
      first + (if es.rest.NoElements? then [] else [0x2C] + WrittenElements(es.rest))
  }

  function WrittenMembers(ms: Members): Bytes {
    if ms.NoMembers? then []
    else
      var first := ms.before + Quoted(ms.name) + ms.afterName + [0x3A] + ms.beforeValue + Written(ms.value) + ms.after;
      first + (if ms.rest.NoMembers? then [] else [0x2C] + WrittenMembers(ms.rest))
  }

  /** A JSON text: a valid value with white space around it. */
  ghost predicate JsonText(s: Bytes) {
    exists before, v, after :: TextOf(s, before, v, after)
  }

  predicate TextOf(s: Bytes, before: Bytes, v: Value, after: Bytes) {
    Whites(before) && Valid(v) && Whites(after) && s == before + Written(v) + after
  }

  /** A JSON text that is an object, as the API demands of a schema. */
  ghost predicate JsonObject(s: Bytes) {
    exists before, v: Value, after :: TextOf(s, before, v, after) && v.Object?
  }

  // --- Every JSON text is lexically valid ---

  lemma {:induction false} Joined(a: Bytes, b: Bytes)
    requires Lexical(a) && Lexical(b)
    ensures Lexical(a + b)
  {
    RunConcat(Outside, a, b);
  }

  lemma {:induction false} AllAllowed(s: Bytes)
    requires forall i :: 0 <= i < |s| ==> s[i] != QUOTE && AllowedOutside(s[i])
    ensures Lexical(s)
  {
    if s != [] {
      AllAllowed(s[1..]);
      assert Run(Outside, s) == Run(Step(Outside, s[0]), s[1..]);
    }
  }

  lemma {:induction false} WhitesLexical(s: Bytes)
    requires Whites(s)
    ensures Lexical(s)
  {
    forall i | 0 <= i < |s|
      ensures s[i] != QUOTE && AllowedOutside(s[i])
    {
      assert IsWhite(s[i]);
    }
    AllAllowed(s);
  }

  lemma {:induction false} DigitsLexical(s: Bytes)
    requires Digits(s)
    ensures Lexical(s)
  {
    forall i | 0 <= i < |s|
      ensures s[i] != QUOTE && AllowedOutside(s[i])
    {
      assert IsDigit(s[i]);
    }
    AllAllowed(s);
  }

  lemma {:induction false} StaysInString(s: Bytes)
    requires forall i :: 0 <= i < |s| ==> s[i] != QUOTE && s[i] != BACKSLASH && s[i] >= 0x20
    ensures Run(InString, s) == InString
  {
    if s != [] {
      StaysInString(s[1..]);
      assert Run(InString, s) == Run(Step(InString, s[0]), s[1..]);
    }
  }

  lemma {:induction false} Two(mode: Mode, a: Byte, b: Byte)
    ensures Run(mode, [a, b]) == Step(Step(mode, a), b)
  {
    assert [a, b][1..] == [b] && [b][1..] == [];
    assert Run(mode, [a, b]) == Run(Step(mode, a), [b]) == Run(Step(Step(mode, a), b), []);
  }

  lemma {:induction false} CharInString(c: Char)
    requires ValidChar(c)
    ensures Run(InString, CharBytes(c)) == InString
  {
    match c
    case Plain(b) =>
      StaysInString([b]);
    case Escape(b) =>
      Two(InString, 0x5C, b);
    case Unicode(digits) =>
      Two(InString, 0x5C, 0x75);
      forall i | 0 <= i < |digits|
        ensures digits[i] != QUOTE && digits[i] != BACKSLASH && digits[i] >= 0x20
      {
        assert IsHex(digits[i]);
      }
      StaysInString(digits);
      RunConcat(InString, [0x5C, 0x75], digits);
  }

  lemma {:induction false} CharsInString(cs: seq<Char>)
    requires ValidChars(cs)
    ensures Run(InString, CharsBytes(cs)) == InString
  {
    if cs != [] {
      var n := |cs| - 1;
      CharsInString(cs[..n]);
      CharInString(cs[n]);
      RunConcat(InString, CharsBytes(cs[..n]), CharBytes(cs[n]));
    }
  }

  lemma {:induction false} One(mode: Mode, b: Byte)
    ensures Run(mode, [b]) == Step(mode, b)
  {
    assert [b][1..] == [];
    assert Run(mode, [b]) == Run(Step(mode, b), []);
  }

  lemma {:induction false} QuotedLexical(cs: seq<Char>)
    requires ValidChars(cs)
    ensures Lexical(Quoted(cs))
  {
    CharsInString(cs);
    One(Outside, 0x22);
    One(InString, 0x22);
    RunConcat(Outside, [0x22] + CharsBytes(cs), [0x22]);
    RunConcat(Outside, [0x22], CharsBytes(cs));
  }

  lemma {:induction false} ExponentLexical(x: Exponent)
    requires ValidExponent(x)
    ensures Lexical(ExponentBytes(x))
  {
    DigitsLexical(x.digits);
    AllAllowed([x.e]);
    AllAllowed(x.sign);
    Joined([x.e], x.sign);
    Joined([x.e] + x.sign, x.digits);
  }

  lemma {:induction false} NumberLexical(minus: bool, whole: Bytes, fraction: Bytes, exponent: seq<Exponent>)
    requires Valid(Number(minus, whole, fraction, exponent))
    ensures Lexical(NumberBytes(minus, whole, fraction, exponent))
  {
    var sign := if minus then [0x2D] else [];
    var point := if fraction == [] then [] else [0x2E] + fraction;
    var power := if exponent == [] then [] else ExponentBytes(exponent[0]);
    AllAllowed(sign);
    DigitsLexical(whole);
    DigitsLexical(fraction);
    AllAllowed([0x2E]);
    Joined([0x2E], fraction);
    if exponent != [] {
      ExponentLexical(exponent[0]);
    }
    Joined(sign, whole);
    Joined(sign + whole, point);
    Joined(sign + whole + point, power);
  }

  /** Whatever stands between two brackets or braces. */
  lemma {:induction false} EnclosedLexical(open: Byte, inner: Bytes, close: Byte)
    requires (open == 0x5B && close == 0x5D) || (open == 0x7B && close == 0x7D)
    requires Lexical(inner)
    ensures Lexical([open] + inner + [close])
  {
    AllAllowed([open]);
    AllAllowed([close]);
    Joined([open], inner);
    Joined([open] + inner, [close]);
  }

  lemma {:induction false} WrittenLexical(v: Value)
    requires Valid(v)
    ensures Lexical(Written(v))
  {
    match v
    case Null => AllAllowed([0x6E, 0x75, 0x6C, 0x6C]);
    case True => AllAllowed([0x74, 0x72, 0x75, 0x65]);
    case False => AllAllowed([0x66, 0x61, 0x6C, 0x73, 0x65]);
    case Number(minus, whole, fraction, exponent) => NumberLexical(minus, whole, fraction, exponent);
    case Text(chars) => QuotedLexical(chars);
    case Array(space, elements) =>
      WhitesLexical(space);
      ElementsLexical(elements);
      EnclosedLexical(0x5B, if elements.NoElements? then space else WrittenElements(elements), 0x5D);
    case Object(space, members) =>
      WhitesLexical(space);
      MembersLexical(members);
      EnclosedLexical(0x7B, if members.NoMembers? then space else WrittenMembers(members), 0x7D);
  }

  lemma {:induction false} FollowedLexical(first: Bytes, rest: Bytes)
    requires Lexical(first) && Lexical(rest)
    ensures Lexical(first + ([0x2C] + rest))
  {
    AllAllowed([0x2C]);
    Joined([0x2C], rest);
    Joined(first, [0x2C] + rest);
  }

  lemma {:induction false} ElementsLexical(es: Elements)
    requires ValidElements(es)
    ensures Lexical(WrittenElements(es))
  {
    if es.Element? {
      var first := es.before + Written(es.value) + es.after;
      WhitesLexical(es.before);
      WrittenLexical(es.value);
      WhitesLexical(es.after);
      Joined(es.before, Written(es.value));
      Joined(es.before + Written(es.value), es.after);
      if es.rest.NoElements? {
        assert first + [] == first;
      } else {
        ElementsLexical(es.rest);
        FollowedLexical(first, WrittenElements(es.rest));
      }
    }
  }

  lemma {:induction false} MemberLexical(before: Bytes, name: seq<Char>, afterName: Bytes, beforeValue: Bytes,
                                         value: Bytes, after: Bytes)
    requires Whites(before) && ValidChars(name) && Whites(afterName) && Whites(beforeValue) && Whites(after)
    requires Lexical(value)
    ensures Lexical(before + Quoted(name) + afterName + [0x3A] + beforeValue + value + after)
  {
    WhitesLexical(before);
    QuotedLexical(name);
    WhitesLexical(afterName);
    AllAllowed([0x3A]);
    WhitesLexical(beforeValue);
    WhitesLexical(after);
    Joined(before, Quoted(name));
    Joined(before + Quoted(name), afterName);
    Joined(before + Quoted(name) + afterName, [0x3A]);
    Joined(before + Quoted(name) + afterName + [0x3A], beforeValue);
    Joined(before + Quoted(name) + afterName + [0x3A] + beforeValue, value);
    Joined(before + Quoted(name) + afterName + [0x3A] + beforeValue + value, after);
  }

  lemma {:induction false} MembersLexical(ms: Members)
    requires ValidMembers(ms)
    ensures Lexical(WrittenMembers(ms))
  {
    if ms.Member? {
      var first := ms.before + Quoted(ms.name) + ms.afterName + [0x3A] + ms.beforeValue + Written(ms.value) + ms.after;
      WrittenLexical(ms.value);
      MemberLexical(ms.before, ms.name, ms.afterName, ms.beforeValue, Written(ms.value), ms.after);
      if ms.rest.NoMembers? {
        assert first + [] == first;
      } else {
        MembersLexical(ms.rest);
        FollowedLexical(first, WrittenMembers(ms.rest));
      }
    }
  }

  /** Every JSON text by the grammar is lexically valid. */
  lemma {:induction false} JsonIsLexical(s: Bytes)
    requires JsonText(s)
    ensures Lexical(s)
  {
    var before, v, after :| TextOf(s, before, v, after);
    WhitesLexical(before);
    WrittenLexical(v);
    WhitesLexical(after);
    Joined(before, Written(v));
    Joined(before + Written(v), after);
  }

  lemma {:induction false} ObjectsAreTexts(s: Bytes)
    requires JsonObject(s)
    ensures JsonText(s)
  {
    var before, v: Value, after :| TextOf(s, before, v, after) && v.Object?;
  }

  /** The framing law for the texts the API deals in: a document and a schema that is any JSON text can be
      told apart in the frame. */
  lemma {:induction false} JsonFrameInjective(d1: Bytes, s1: Bytes, d2: Bytes, s2: Bytes)
    requires JsonText(s1) && JsonText(s2)
    requires d1 + [0x7C, 0x7C] + s1 == d2 + [0x7C, 0x7C] + s2
    ensures d1 == d2 && s1 == s2
  {
    JsonIsLexical(s1);
    JsonIsLexical(s2);
    FrameInjective(d1, s1, d2, s2);
  }

  // --- Some of the texts there are ---

  predicate PlainText(s: Bytes) {
    forall i :: 0 <= i < |s| ==> s[i] >= 0x20 && s[i] != 0x22 && s[i] != 0x5C
  }

  function PlainChars(s: Bytes): (cs: seq<Char>)
    ensures |cs| == |s| && forall i :: 0 <= i < |s| ==> cs[i] == Plain(s[i])
  {
    seq(|s|, i requires 0 <= i < |s| => Plain(s[i]))
  }

  lemma {:induction false} PlainBytes(s: Bytes)
    ensures CharsBytes(PlainChars(s)) == s
  {
    if s != [] {
      var n := |s| - 1;
      PlainBytes(s[..n]);
      assert PlainChars(s)[..n] == PlainChars(s[..n]);
    }
  }

  /** A name in quotes is a JSON text. */
  lemma {:induction false} NameIsText(name: Bytes)
    requires PlainText(name)
    ensures JsonText([0x22] + name + [0x22])
  {
    PlainBytes(name);
    var v := Text(PlainChars(name));
    assert [] + Written(v) + [] == [0x22] + name + [0x22];
    assert TextOf([0x22] + name + [0x22], [], v, []);
  }

  /** `{"name":text}` is a JSON object if `text` is a JSON text. */
  lemma {:induction false} ObjectOfOne(name: Bytes, text: Bytes)
    requires PlainText(name) && JsonText(text)
    ensures JsonObject([0x7B, 0x22] + name + [0x22, 0x3A] + text + [0x7D])
  {
    var before, v, after :| TextOf(text, before, v, after);
    var members := Member([], PlainChars(name), [], before, v, after, NoMembers);
    OneMember(name, before, v, after);
    MembersMakeObject(members);
    assert [0x7B] + ([0x22] + name + [0x22, 0x3A] + text) + [0x7D] ==
      [0x7B, 0x22] + name + [0x22, 0x3A] + text + [0x7D];
  }

  lemma {:induction false} MembersMakeObject(members: Members)
    requires members.Member? && ValidMembers(members)
    ensures JsonObject([0x7B] + WrittenMembers(members) + [0x7D])
  {
    var v, text := Object([], members), [0x7B] + WrittenMembers(members) + [0x7D];
    assert [] + Written(v) + [] == text;
    assert TextOf(text, [], v, []);
  }

  lemma {:induction false} OneMember(name: Bytes, before: Bytes, v: Value, after: Bytes)
    ensures WrittenMembers(Member([], PlainChars(name), [], before, v, after, NoMembers))
         == [0x22] + name + [0x22, 0x3A] + (before + Written(v) + after)
  {
    PlainBytes(name);
    var quoted, value := [0x22] + name + [0x22], Written(v);
    assert [] + quoted + [] + [0x3A] + before + value + after + [] ==
      [0x22] + name + [0x22, 0x3A] + (before + value + after);
  }

  /** `{"properties":{"name":{"type":"kind"}}}`, a schema such as the API lets in, is a JSON object. */
  lemma {:induction false} SchemaIsObject(properties: Bytes, name: Bytes, ty: Bytes, kind: Bytes)
    requires PlainText(properties) && PlainText(name) && PlainText(ty) && PlainText(kind)
    ensures JsonObject([0x7B, 0x22] + properties + [0x22, 0x3A]
                     + ([0x7B, 0x22] + name + [0x22, 0x3A]
                      + ([0x7B, 0x22] + ty + [0x22, 0x3A] + ([0x22] + kind + [0x22]) + [0x7D]) + [0x7D]) + [0x7D])
  {
    NameIsText(kind);
    var inner := [0x7B, 0x22] + ty + [0x22, 0x3A] + ([0x22] + kind + [0x22]) + [0x7D];
    ObjectOfOne(ty, [0x22] + kind + [0x22]);
    ObjectsAreTexts(inner);
    var middle := [0x7B, 0x22] + name + [0x22, 0x3A] + inner + [0x7D];
    ObjectOfOne(name, inner);
    ObjectsAreTexts(middle);
    ObjectOfOne(properties, middle);
  }
}
