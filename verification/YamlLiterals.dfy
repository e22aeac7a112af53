/** What the configuration reader takes a scalar for, by the way numbers are written. */
module YamlLiterals {
  import opened Basics
  import opened YamlText
  import opened YamlScalar

  // Whole numbers.

  predicate Digits(s: string) { s != "" && forall i :: 0 <= i < |s| ==> '0' <= s[i] <= '9' }

  function Joined(groups: seq<string>): string {
    if groups == [] then "" else if |groups| == 1 then groups[0] else groups[0] + "_" + Joined(groups[1..])
  }

  /** Groups of digits joined by single underscores. */
  ghost predicate Grouped(s: string) {
    exists groups: seq<string> :: groups != [] && (forall g <- groups :: Digits(g)) && s == Joined(groups)
  }

  lemma {:induction false} JoinedIsDigitPart(groups: seq<string>)
    requires groups != [] && forall g <- groups :: Digits(g)
    ensures DigitPart(Joined(groups))
  {
    assert groups[0] in groups;
    if |groups| > 1 {
      JoinedIsDigitPart(groups[1..]);
      GroupInFront(groups[0], Joined(groups[1..]));
    }
  }

  lemma GroupInFront(group: string, rest: string)
    requires Digits(group) && DigitPart(rest)
    ensures DigitPart(group + "_" + rest)
  {
    var s := group + "_" + rest;
    assert forall i :: 0 <= i < |s| ==>
      s[i] == if i < |group| then group[i] else if i == |group| then '_' else rest[i - |group| - 1];
  }

  lemma {:induction false} DigitPartIsJoined(s: string) returns (groups: seq<string>)
    requires DigitPart(s)
    ensures groups != [] && (forall g <- groups :: Digits(g)) && s == Joined(groups)
    decreases |s|
  {
    hide DigitPart, Digits;
    var n := Find(s, IsUnderscore);
    FirstGroup(s, n);
    if n == |s| {
      groups := [s];
      assert s[..n] == s;
    } else {
      var rest := DigitPartIsJoined(s[n + 1..]);
      groups := [s[..n]] + rest;
      assert groups[1..] == rest;
    }
  }

  /** What comes before the first underscore is digits, and what comes after it is digit groups again. */
  lemma FirstGroup(s: string, n: nat)
    requires DigitPart(s) && n == Find(s, IsUnderscore)
    ensures Digits(s[..n])
    ensures n < |s| ==> DigitPart(s[n + 1..]) && s == s[..n] + "_" + s[n + 1..]
  {
    hide DigitPart, Find;
    Ends(s);
    assert forall i :: 0 <= i < n ==> IsDigit(s[i]);
    if n < |s| {
      LaterGroups(s, n);
    }
  }

  lemma Ends(s: string)
    requires DigitPart(s)
    ensures s != "" && IsDigit(s[0]) && IsDigit(s[|s| - 1])
    ensures forall i :: 0 <= i < |s| ==> IsDigit(s[i]) || s[i] == '_'
  {
  }

  lemma LaterGroups(s: string, n: nat)
    requires DigitPart(s) && n < |s| && s[n] == '_'
    ensures DigitPart(s[n + 1..])
  {
    var rest := s[n + 1..];
    assert s[n + 1] != '_';
    assert rest[0] == s[n + 1] && rest[|rest| - 1] == s[|s| - 1];
    assert forall i :: 0 <= i < |rest| ==> rest[i] == s[n + 1 + i];
  }

  predicate IsUnderscore(c: char) { c == '_' }

  lemma GroupedExactlyWhen(s: string)
    ensures DigitPart(s) <==> Grouped(s)
  {
    if DigitPart(s) {
      var groups := DigitPartIsJoined(s);
    }
    if Grouped(s) {
      var groups: seq<string> :| groups != [] && (forall g <- groups :: Digits(g)) && s == Joined(groups);
      JoinedIsDigitPart(groups);
    }
  }

  predicate Sign(s: string) { s == "" || s == "+" || s == "-" }

  /** A sign, or none, and grouped digits. */
  ghost predicate WholeNumber(s: string) {
    exists sign: string, digits: string :: Sign(sign) && Grouped(digits) && s == sign + digits
  }

  lemma Signed(s: string) returns (sign: string)
    ensures Sign(sign) && s == sign + Unsigned(s)
  {
    sign := if s != "" && (s[0] == '-' || s[0] == '+') then s[..1] else "";
  }

  /** What `int` accepts. */
  lemma WholeExactlyWhen(s: string)
    ensures IntLiteral(s) <==> WholeNumber(s)
  {
    hide DigitPart, Grouped, Unsigned;
    if IntLiteral(s) {
      var sign := Signed(s);
      GroupedExactlyWhen(Unsigned(s));
    }
    if WholeNumber(s) {
      var sign: string, digits: string :| Sign(sign) && Grouped(digits) && s == sign + digits;
      GroupedExactlyWhen(digits);
      SignTakenOff(sign, digits);
    }
  }

  lemma SignTakenOff(sign: string, rest: string)
    requires Sign(sign) && (DigitPart(rest) || (rest != "" && rest[0] == '.'))
    ensures Unsigned(sign + rest) == rest
  {
    assert sign == "" ==> sign + rest == rest;
    assert sign != "" ==> (sign + rest)[1..] == rest;
  }

  // Fractions.

  /** An exponent, or none. */
  ghost predicate Tail(s: string) {
    || s == ""
    || exists e: string, power: string :: (e == "e" || e == "E") && WholeNumber(power) && s == e + power
  }

  /** A sign, or none, digits around a point, at least on one side of it, and an exponent or none. */
  ghost predicate Fraction(s: string) {
    exists sign: string, whole: string, part: string, tail: string ::
      Sign(sign) && Sides(whole, part) && Tail(tail) && s == sign + (whole + "." + part + tail)
  }

  ghost predicate Sides(whole: string, part: string) {
    (whole == "" || Grouped(whole)) && (part == "" || Grouped(part)) && (whole != "" || part != "")
  }

  lemma SidesMeaning(whole: string, part: string)
    ensures Sides(whole, part) <==>
              (whole == "" || DigitPart(whole)) && (part == "" || DigitPart(part)) && (whole != "" || part != "")
  {
    hide Grouped, DigitPart;
    GroupedExactlyWhen(whole);
    GroupedExactlyWhen(part);
  }

  lemma MantissaExactlyWhen(whole: string, part: string)
    requires forall i :: 0 <= i < |whole| ==> whole[i] != '.'
    ensures MantissaLiteral(whole + "." + part) <==> Sides(whole, part)
  {
    hide DigitPart;
    var m := whole + "." + part;
    FindIs(m, IsDot, |whole|);
    assert m[..|whole|] == whole && m[|whole| + 1..] == part;
    SidesMeaning(whole, part);
  }

  lemma SplitMantissa(m: string) returns (whole: string, part: string)
    requires MantissaLiteral(m)
    ensures Sides(whole, part) && m == whole + "." + part
  {
    hide DigitPart;
    var dot := Find(m, IsDot);
    whole, part := m[..dot], m[dot + 1..];
    SidesMeaning(whole, part);
  }

  lemma SidesCharacters(whole: string, part: string)
    requires Sides(whole, part)
    ensures forall i :: 0 <= i < |whole| ==> whole[i] != '.' && !IsExponent(whole[i])
    ensures forall i :: 0 <= i < |part| ==> !IsExponent(part[i])
  {
    SidesMeaning(whole, part);
  }

  lemma TailExactlyWhen(tail: string)
    ensures Tail(tail) <==>
              tail == "" || ((tail[0] == 'e' || tail[0] == 'E') && IntLiteral(tail[1..]))
  {
    hide IntLiteral, WholeNumber;
    if tail != "" {
      WholeExactlyWhen(tail[1..]);
      assert tail == tail[..1] + tail[1..];
      assert tail[0] == 'e' ==> tail[..1] == "e";
      assert tail[0] == 'E' ==> tail[..1] == "E";
    }
  }

  /** What `float` accepts of a text with a point. */
  lemma FractionExactlyWhen(s: string)
    ensures FloatLiteral(s) <==> Fraction(s)
  {
    hide Unsigned, Tail, Sides, MantissaLiteral, IntLiteral;
    if FloatLiteral(s) {
      var sign := Signed(s);
      var body := Unsigned(s);
      var e := Find(body, IsExponent);
      var whole, part := SplitMantissa(body[..e]);
      TailOfFloat(s);
      assert body == whole + "." + part + body[e..];
    }
    if Fraction(s) {
      var sign: string, whole: string, part: string, tail: string :|
        Sign(sign) && Sides(whole, part) && Tail(tail) && s == sign + (whole + "." + part + tail);
      FractionIsFloat(sign, whole, part, tail);
    }
  }

  lemma TailOfFloat(s: string)
    requires FloatLiteral(s)
    ensures var body := Unsigned(s); Tail(body[Find(body, IsExponent)..])
  {
    hide Unsigned, MantissaLiteral, DigitPart;
    var body := Unsigned(s);
    var e := Find(body, IsExponent);
    TailExactlyWhen(body[e..]);
    if e < |body| {
      assert body[e..][1..] == body[e + 1..];
    }
  }

  lemma FractionIsFloat(sign: string, whole: string, part: string, tail: string)
    requires Sign(sign) && Sides(whole, part) && Tail(tail)
    ensures FloatLiteral(sign + (whole + "." + part + tail))
  {
    hide Tail, Sides, MantissaLiteral, FloatLiteral, Unsigned, IntLiteral;
    SidesCharacters(whole, part);
    MantissaExactlyWhen(whole, part);
    TailExactlyWhen(tail);
    Pointed(sign, whole, part, tail);
    ExponentAt(whole, part, tail);
    FloatOfParts(sign + (whole + "." + part + tail), whole + "." + part, tail);
  }

  lemma ExponentAt(whole: string, part: string, tail: string)
    requires forall i :: 0 <= i < |whole| ==> !IsExponent(whole[i])
    requires forall i :: 0 <= i < |part| ==> !IsExponent(part[i])
    requires tail == "" || tail[0] == 'e' || tail[0] == 'E'
    ensures Find(whole + "." + part + tail, IsExponent) == |whole + "." + part|
  {
    var m, body := whole + "." + part, whole + "." + part + tail;
    forall i | 0 <= i < |m|
      ensures !IsExponent(body[i])
    {
      assert body[i] == if i < |whole| then whole[i] else if i == |whole| then '.' else part[i - |whole| - 1];
    }
    FindIs(body, IsExponent, |m|);
  }

  lemma FloatOfParts(s: string, m: string, tail: string)
    requires Unsigned(s) == m + tail && Find(m + tail, IsExponent) == |m| && MantissaLiteral(m)
    requires tail == "" || IntLiteral(tail[1..])
    ensures FloatLiteral(s)
  {
    hide MantissaLiteral, DigitPart;
    assert (m + tail)[..|m|] == m;
    if tail != "" {
      assert (m + tail)[|m| + 1..] == tail[1..];
    }
  }

  lemma Pointed(sign: string, whole: string, part: string, tail: string)
    requires Sign(sign) && Sides(whole, part)
    ensures Unsigned(sign + (whole + "." + part + tail)) == whole + "." + part + tail
  {
    var body := whole + "." + part + tail;
    SidesMeaning(whole, part);
    assert body[0] == if whole == "" then '.' else whole[0];
    assert sign == "" ==> sign + body == body;
    assert sign != "" ==> (sign + body)[1..] == body;
  }

  // Scalars.

  /** What a text is taken for once the white space around it is gone. */
  lemma ScalarMeaning(raw: string)
    ensures var value := Strip(raw);
            var yes := value == "true" || value == "True" || value == "yes";
            var no := value == "false" || value == "False" || value == "no";
            var none := value == "null" || value == "None" || value == "~";
            var quoted := |value| >= 2 && value[0] == value[|value| - 1] && (value[0] == '"' || value[0] == '\'');
            var point := exists i :: 0 <= i < |value| && value[i] == '.';
            match ParseScalar(raw)
            case Bool(b) => if b then yes else no
            case Null => none
            case Int(n) => !yes && !no && !none && !quoted && !point && WholeNumber(value) && n == IntValue(value)
            case Float(literal) => !yes && !no && !none && !quoted && point && Fraction(value) && literal == value
            case Str(text) =>
              && !yes && !no && !none
              && if quoted then text == value[1..|value| - 1]
                 else text == value && !(if point then Fraction(value) else WholeNumber(value))
  {
    hide Strip, IntLiteral, FloatLiteral, WholeNumber, Fraction;
    WholeExactlyWhen(Strip(raw));
    FractionExactlyWhen(Strip(raw));
  }

  /** The value of grouped digits: a further digit multiplies by ten, underscores do not count. */
  lemma ValueOfDigits(s: string, digit: char)
    requires (forall i :: 0 <= i < |s| ==> IsDigit(s[i]) || s[i] == '_') && '0' <= digit <= '9'
    ensures NatValue("") == 0 && NatValue(s + "_") == NatValue(s)
    ensures NatValue(s + [digit]) == 10 * NatValue(s) + (digit as int - '0' as int)
  {
    assert (s + "_")[..|s|] == s && (s + [digit])[..|s|] == s;
  }

  // White space.

  /** The code points of the characters that are stripped and of those that end a line. */
  lemma SpacesAndBreaks(c: char)
    ensures var code := c as int;
            && (IsSpace(c) <==>
                  || code in {9, 10, 11, 12, 13, 28, 29, 30, 31, 32, 133, 160, 5760, 8232, 8233, 8239, 8287, 12288}
                  || code in {8192, 8193, 8194, 8195, 8196, 8197, 8198, 8199, 8200, 8201, 8202})
            && (IsBreak(c) <==> code in {10, 11, 12, 13, 28, 29, 30, 133, 8232, 8233})
  {
  }

  lemma {:induction false} TailIsSpace(s: string)
    ensures forall i :: Length(s) <= i < |s| ==> IsSpace(s[i])
    decreases |s|
  {
    hide IsSpace;
    if s != "" && IsSpace(s[|s| - 1]) {
      TailIsSpace(s[..|s| - 1]);
    }
  }

  /** Stripping takes away exactly the white space at both ends. */
  lemma StripMeaning(s: string) returns (left: string, right: string)
    ensures s == left + Strip(s) + right
    ensures (forall c <- left :: IsSpace(c)) && (forall c <- right :: IsSpace(c))
    ensures Strip(s) != "" ==> !IsSpace(Strip(s)[0]) && !IsSpace(Strip(s)[|Strip(s)| - 1])
  {
    hide IsSpace;
    StripIsTrimmed(s);
    var n, middle := Find(s, NotSpace), LStrip(s);
    left, right := s[..n], middle[Length(middle)..];
    TailIsSpace(middle);
    forall i | 0 <= i < n
      ensures IsSpace(left[i])
    {
      assert !NotSpace(s[i]);
    }
  }
}
