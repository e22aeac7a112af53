/** Text handling of the configuration reader: line splitting, stripping and comments. */
module YamlText {

  /** What `str.strip` removes. */
  predicate IsSpace(c: char) {
    || c == ' ' || '\t' <= c <= '\r' || '\U{1C}' <= c <= '\U{1F}' || c == '\U{85}' || c == '\U{A0}' || c == '\U{1680}'
    || '\U{2000}' <= c <= '\U{200A}' || c == '\U{2028}' || c == '\U{2029}' || c == '\U{202F}' || c == '\U{205F}'
    || c == '\U{3000}'
  }

  /** What `str.splitlines` breaks at. */
  predicate IsBreak(c: char) {
    || c == '\n' || c == '\U{0B}' || c == '\U{0C}' || c == '\r' || '\U{1C}' <= c <= '\U{1E}' || c == '\U{85}'
    || c == '\U{2028}' || c == '\U{2029}'
  }

  /** The position of the first character that satisfies `p`, or the length. */
  function Find(s: string, p: char -> bool): (n: nat)
    ensures n <= |s| && (forall i :: 0 <= i < n ==> !p(s[i])) && (n < |s| ==> p(s[n]))
  {
    if s == "" then 0 else if p(s[0]) then 0 else 1 + Find(s[1..], p)
  }

  lemma FindIs(s: string, p: char -> bool, n: nat)
    requires n <= |s| && (forall i :: 0 <= i < n ==> !p(s[i])) && (n < |s| ==> p(s[n]))
    ensures Find(s, p) == n
  {
  }

  function SplitLines(text: string): seq<string>
    decreases |text|
  {
    if text == "" then []
    else
      var n := Find(text, IsBreak);
      var skip := if n + 1 < |text| && text[n] == '\r' && text[n + 1] == '\n' then 2 else 1;
      [text[..n]] + if n == |text| then [] else SplitLines(text[n + skip..])
  }

  /** Every line ended by a newline. */
  function Unlines(lines: seq<string>): string {
    if lines == [] then "" else lines[0] + "\n" + Unlines(lines[1..])
  }

  predicate OneLine(line: string) { forall i :: 0 <= i < |line| ==> !IsBreak(line[i]) }

  lemma FirstBreak(text: string, n: nat)
    requires n < |text| && OneLine(text[..n]) && text[n] == '\n'
    ensures SplitLines(text) == [text[..n]] + SplitLines(text[n + 1..])
  {
    forall i | 0 <= i < n
      ensures !IsBreak(text[i])
    {
      assert text[i] == text[..n][i];
    }
    FindIs(text, IsBreak, n);
  }

  lemma NoText()
    ensures SplitLines("") == []
  {
  }

  lemma {:induction false} SplitUnlines(lines: seq<string>)
    requires forall line <- lines :: OneLine(line)
    ensures SplitLines(Unlines(lines)) == lines
  {
    hide SplitLines, OneLine;
    if lines == [] {
      NoText();
    } else {
      var text, n := Unlines(lines), |lines[0]|;
      assert OneLine(lines[0]) by { assert lines[0] in lines; }
      assert text[..n] == lines[0] && text[n] == '\n' && text[n + 1..] == Unlines(lines[1..]);
      FirstBreak(text, n);
      SplitUnlines(lines[1..]);
    }
  }

  predicate NotSpace(c: char) { !IsSpace(c) }

  /** The length of `s` without its trailing white space. */
  function Length(s: string): (n: nat)
    ensures n <= |s| && (n > 0 ==> !IsSpace(s[n - 1]))
    ensures s != "" && !IsSpace(s[|s| - 1]) ==> n == |s|
  {
    if s != "" && IsSpace(s[|s| - 1]) then Length(s[..|s| - 1]) else |s|
  }

  function LStrip(s: string): string { s[Find(s, NotSpace)..] }

  function RStrip(s: string): string { s[..Length(s)] }

  function Strip(s: string): string { RStrip(LStrip(s)) }

  /** Neither end is white space. */
  predicate Trimmed(s: string) {
    s != "" ==> !IsSpace(s[0]) && !IsSpace(s[|s| - 1])
  }

  lemma StripIsTrimmed(s: string)
    ensures Trimmed(Strip(s))
    ensures forall c <- Strip(s) :: c in s
  {
  }

  lemma StripTrimmed(s: string)
    requires Trimmed(s)
    ensures Strip(s) == s && RStrip(s) == s
  {
    if s != "" {
      FindIs(s, NotSpace, 0);
    }
  }

  function Spaces(n: nat): string { seq(n, _ => ' ') }

  lemma StripPadded(n: nat, s: string)
    requires s != "" && Trimmed(s)
    ensures LStrip(Spaces(n) + s) == s && Strip(Spaces(n) + s) == s && RStrip(Spaces(n) + s) == Spaces(n) + s
  {
    var t := Spaces(n) + s;
    assert t[n] == s[0] && t[|t| - 1] == s[|s| - 1];
    assert forall i :: 0 <= i < n ==> t[i] == ' ';
    FindIs(t, NotSpace, n);
    assert t[n..] == s;
  }

  predicate IsHash(c: char) { c == '#' }

  predicate IsColon(c: char) { c == ':' }

  predicate NotBlank(c: char) { c != ' ' }

  /** `original.split("#", 1)[0]` */
  function BeforeHash(s: string): string {
    s[..Find(s, IsHash)]
  }

  predicate StartsWith(s: string, prefix: string) { prefix <= s }
}
