/** Scalars of the configuration reader. */
module YamlScalar {
  import opened Basics
  import opened YamlText

  /** A float is kept as the literal it was written as. */
  datatype Scalar = Bool(b: bool) | Null | Int(n: int) | Float(literal: string) | Str(s: string)

  predicate IsDigit(c: char) { '0' <= c <= '9' }

  /** Digits with single underscores between them. */
  predicate DigitPart(s: string) {
    && s != "" && IsDigit(s[0]) && IsDigit(s[|s| - 1])
    && (forall i :: 0 <= i < |s| ==> IsDigit(s[i]) || s[i] == '_')
    && (forall i :: 0 <= i < |s| - 1 ==> s[i] == '_' ==> s[i + 1] != '_')
  }

  function NatValue(s: string): (n: nat)
    requires forall i :: 0 <= i < |s| ==> IsDigit(s[i]) || s[i] == '_'
  {
    if s == "" then 0
    else
      var front, last := s[..|s| - 1], s[|s| - 1];
      if IsDigit(last) then 10 * NatValue(front) + (last as int - '0' as int) else NatValue(front)
  }

  function Unsigned(s: string): string {
    if s != "" && (s[0] == '-' || s[0] == '+') then s[1..] else s
  }

  /** What `int(value)` accepts. */
  predicate IntLiteral(s: string) { DigitPart(Unsigned(s)) }

  function IntValue(s: string): int
    requires IntLiteral(s)
  {
    var magnitude: int := NatValue(Unsigned(s));
    if s[0] == '-' then -magnitude else magnitude
  }

  predicate IsDot(c: char) { c == '.' }

  predicate IsExponent(c: char) { c == 'e' || c == 'E' }

  /** What `float(value)` accepts among texts that contain a dot. */
  predicate FloatLiteral(s: string) {
    var body := Unsigned(s);
    var e := Find(body, IsExponent);
    MantissaLiteral(body[..e]) && (e == |body| || DigitPart(Unsigned(body[e + 1..])))
  }

  predicate MantissaLiteral(m: string) {
    var dot := Find(m, IsDot);
    && dot < |m|
    && (m[..dot] == "" || DigitPart(m[..dot]))
    && (m[dot + 1..] == "" || DigitPart(m[dot + 1..]))
    && (m[..dot] != "" || m[dot + 1..] != "")
  }

  predicate Quoted(s: string) {
    |s| >= 2 && s[0] == s[|s| - 1] && (s[0] == '"' || s[0] == '\'')
  }

  function Keyword(value: string): Option<Scalar> {
    if value == "true" || value == "True" || value == "yes" then Some(Bool(true))
    else if value == "false" || value == "False" || value == "no" then Some(Bool(false))
    else if value == "null" || value == "None" || value == "~" then Some(Null)
    else None
  }

  predicate KeywordInitial(c: char) {
    c == 't' || c == 'T' || c == 'y' || c == 'f' || c == 'F' || c == 'n' || c == 'N' || c == '~'
  }

  lemma NotKeyword(value: string)
    requires value == "" || !KeywordInitial(value[0])
    ensures Keyword(value).None?
  {
  }

  function ParseScalar(raw: string): Scalar {
    var value := Strip(raw);
    if Keyword(value).Some? then Keyword(value).value
    else if Quoted(value) then Str(value[1..|value| - 1])
    else if Find(value, IsDot) < |value| then (if FloatLiteral(value) then Float(value) else Str(value))
    else if IntLiteral(value) then Int(IntValue(value))
    else Str(value)
  }

  function Digit(n: nat): char
    requires n < 10
  {
    n as char + '0'
  }

  function PrintNat(n: nat): (s: string)
    ensures s != "" && forall i :: 0 <= i < |s| ==> IsDigit(s[i])
  {
    if n < 10 then [Digit(n)] else PrintNat(n / 10) + [Digit(n % 10)]
  }

  function PrintScalar(x: Scalar): string {
    match x
    case Bool(b) => if b then "true" else "false"
    case Null => "null"
    case Int(n) => if n < 0 then "-" + PrintNat(-n) else PrintNat(n)
    case Float(literal) => literal
    case Str(s) => "\"" + s + "\""
  }

  /** What a printed scalar may be made of: a comment sign or a line break cannot be escaped. */
  predicate Plain(s: string) { forall i :: 0 <= i < |s| ==> !IsHash(s[i]) && !IsBreak(s[i]) }

  predicate PrintableScalar(x: Scalar) {
    (x.Float? ==> FloatLiteral(x.literal)) && (x.Str? ==> Plain(x.s))
  }

  lemma {:induction false} NatRoundTrip(n: nat)
    ensures NatValue(PrintNat(n)) == n
  {
    var s := PrintNat(n);
    if n >= 10 {
      assert s[..|s| - 1] == PrintNat(n / 10) && s[|s| - 1] == Digit(n % 10);
      NatRoundTrip(n / 10);
    } else {
      assert s[..|s| - 1] == "";
    }
  }

  predicate FloatChar(c: char) { IsDigit(c) || c == '+' || c == '-' || c == '.' || c == '_' || c == 'e' || c == 'E' }

  predicate AllFloatChars(s: string) { forall i :: 0 <= i < |s| ==> FloatChar(s[i]) }

  lemma DigitPartChars(s: string)
    requires s == "" || DigitPart(s)
    ensures AllFloatChars(s)
  {
  }

  lemma UnsignedChars(s: string)
    requires AllFloatChars(Unsigned(s))
    ensures AllFloatChars(s)
  {
    forall i | 0 <= i < |s|
      ensures FloatChar(s[i])
    {
      assert s == Unsigned(s) || (s[1..] == Unsigned(s) && (i > 0 ==> s[i] == s[1..][i - 1]));
    }
  }

  lemma MantissaCharacters(m: string)
    requires MantissaLiteral(m)
    ensures AllFloatChars(m) && m != "" && Find(m, IsDot) < |m|
  {
    hide DigitPart, AllFloatChars, Find;
    var dot := Find(m, IsDot);
    DigitPartChars(m[..dot]);
    DigitPartChars(m[dot + 1..]);
    SplitChars(m, dot);
  }

  lemma SplitChars(s: string, e: nat)
    requires e < |s| && AllFloatChars(s[..e]) && FloatChar(s[e]) && AllFloatChars(s[e + 1..])
    ensures AllFloatChars(s)
  {
    forall i | 0 <= i < |s|
      ensures FloatChar(s[i])
    {
      assert i < e ==> s[i] == s[..e][i];
      assert i > e ==> s[i] == s[e + 1..][i - e - 1];
    }
  }

  lemma HasDot(s: string, i: nat)
    requires i < |s| && s[i] == '.'
    ensures Find(s, IsDot) < |s|
  {
  }

  lemma ExponentChars(body: string, e: nat)
    requires e == Find(body, IsExponent) && AllFloatChars(body[..e])
    requires e == |body| || DigitPart(Unsigned(body[e + 1..]))
    ensures AllFloatChars(body)
  {
    hide DigitPart, AllFloatChars, Unsigned, Find;
    if e < |body| {
      DigitPartChars(Unsigned(body[e + 1..]));
      UnsignedChars(body[e + 1..]);
      SplitChars(body, e);
    } else {
      assert body[..e] == body;
    }
  }

  lemma UnsignedTail(s: string, i: nat)
    requires i < |Unsigned(s)|
    ensures |Unsigned(s)| <= |s| && s[i + |s| - |Unsigned(s)|] == Unsigned(s)[i]
  {
  }

  /** Every character of a float literal is a digit, a sign, a dot, an underscore or an exponent mark. */
  lemma FloatCharacters(s: string)
    requires FloatLiteral(s)
    ensures s != "" && AllFloatChars(s) && Find(s, IsDot) < |s|
  {
    hide MantissaLiteral, DigitPart, AllFloatChars, Unsigned, Find;
    var body := Unsigned(s);
    var e := Find(body, IsExponent);
    MantissaCharacters(body[..e]);
    ExponentChars(body, e);
    UnsignedChars(s);
    var dot := Find(body[..e], IsDot);
    assert body[dot] == body[..e][dot];
    UnsignedTail(s, dot);
    HasDot(s, dot + |s| - |body|);
  }

  /** A printed scalar sits safely inside a line. */
  predicate Inline(s: string) { s != "" && Trimmed(s) && Plain(s) }

  lemma FloatCharsInline(s: string)
    requires s != "" && AllFloatChars(s)
    ensures Inline(s) && !KeywordInitial(s[0]) && !Quoted(s)
  {
    assert FloatChar(s[0]) && FloatChar(s[|s| - 1]);
  }

  lemma FloatRoundTrip(s: string)
    requires FloatLiteral(s)
    ensures ParseScalar(s) == Float(s) && Inline(s)
  {
    FloatCharacters(s);
    FloatCharsInline(s);
    StripTrimmed(s);
    NotKeyword(s);
  }

  /** A printed integer has no dot, and is a sign and digits. */
  lemma IntText(n: int)
    ensures var s := PrintScalar(Int(n));
            && s != "" && AllFloatChars(s) && Find(s, IsDot) == |s|
            && Unsigned(s) == PrintNat(if n < 0 then -n else n)
            && (s[0] == '-' <==> n < 0)
  {
    var s := PrintScalar(Int(n));
    assert forall i :: 0 <= i < |s| ==> IsDigit(s[i]) || s[i] == '-';
    FindIs(s, IsDot, |s|);
  }

  lemma IntRoundTrip(n: int)
    ensures ParseScalar(PrintScalar(Int(n))) == Int(n) && Inline(PrintScalar(Int(n)))
  {
    var s := PrintScalar(Int(n));
    IntText(n);
    FloatCharsInline(s);
    NatRoundTrip(if n < 0 then -n else n);
    StripTrimmed(s);
    NotKeyword(s);
    assert IntLiteral(s);
  }

  lemma StrRoundTrip(text: string)
    requires Plain(text)
    ensures ParseScalar(PrintScalar(Str(text))) == Str(text) && Inline(PrintScalar(Str(text)))
  {
    var s := PrintScalar(Str(text));
    assert s[0] == '"' && s[|s| - 1] == '"';
    StripTrimmed(s);
    NotKeyword(s);
    assert s[1..|s| - 1] == text;
  }

  lemma KeywordRoundTrip(x: Scalar)
    requires x.Bool? || x.Null?
    ensures ParseScalar(PrintScalar(x)) == x && Inline(PrintScalar(x))
  {
    StripTrimmed(PrintScalar(x));
  }

  /** Printing and reading a scalar gives it back. */
  lemma ScalarRoundTrip(x: Scalar)
    requires PrintableScalar(x)
    ensures ParseScalar(PrintScalar(x)) == x && Inline(PrintScalar(x))
  {
    match x
    case Bool(_) => KeywordRoundTrip(x);
    case Null => KeywordRoundTrip(x);
    case Float(literal) => FloatRoundTrip(literal);
    case Str(text) => StrRoundTrip(text);
    case Int(n) => IntRoundTrip(n);
  }

  /** Whatever is read from a piece of a line can be printed again. */
  lemma ParsedScalarPrintable(raw: string)
    requires Plain(raw)
    ensures PrintableScalar(ParseScalar(raw))
  {
    var value := Strip(raw);
    StripIsTrimmed(raw);
    forall i | 0 <= i < |value|
      ensures !IsHash(value[i]) && !IsBreak(value[i])
    {
      assert value[i] in value;
    }
  }
}
