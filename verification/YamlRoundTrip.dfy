/** A printer for configuration trees, and the proof that the parser undoes it. */
module YamlRoundTrip {
  import opened Basics
  import opened YamlText
  import opened YamlScalar
  import opened YamlParser

  function KeyLine(key: string): string { key + ":" }

  function ValueLine(key: string, x: Scalar): string { key + ": " + PrintScalar(x) }

  function ItemLine(x: Scalar): string { "- " + PrintScalar(x) }

  function Layout(entries: seq<Entry>, indent: nat): seq<Line> {
    if entries == [] then [] else LayoutEntry(entries[0], indent) + Layout(entries[1..], indent)
  }

  function LayoutEntry(entry: Entry, indent: nat): (lines: seq<Line>)
  {
    match entry.value
    case Leaf(scalar) => [Line(indent, ValueLine(entry.key, scalar))]
    case ListOf(items) => [Line(indent, KeyLine(entry.key))] + LayoutItems(items, indent + 2)
    case MapOf(entries) => [Line(indent, KeyLine(entry.key))] + Layout(entries, indent + 2)
  }

  function LayoutItems(items: seq<Scalar>, indent: nat): (lines: seq<Line>)
    ensures |lines| == |items|
  {
    if items == [] then [] else [Line(indent, ItemLine(items[0]))] + LayoutItems(items[1..], indent)
  }

  function Render(lines: seq<Line>): (texts: seq<string>)
    ensures |texts| == |lines|
    ensures forall i :: 0 <= i < |lines| ==> texts[i] == Spaces(lines[i].indent) + lines[i].content
  {
    if lines == [] then [] else [Spaces(lines[0].indent) + lines[0].content] + Render(lines[1..])
  }

  /** Two spaces for every level, one line for every entry and list item. */
  function PrintText(entries: seq<Entry>): string {
    Unlines(Render(Layout(entries, 0)))
  }

  predicate PrintableKey(key: string) {
    Plain(key) && Trimmed(key) && Find(key, IsColon) == |key| && !StartsWith(key, "- ")
  }

  predicate PrintableItems(items: seq<Scalar>) {
    forall i :: 0 <= i < |items| ==> PrintableScalar(items[i])
  }

  predicate PrintableTree(tree: Tree) {
    match tree
    case Leaf(scalar) => PrintableScalar(scalar)
    case ListOf(items) => items != [] && PrintableItems(items)
    case MapOf(entries) => Printable(entries)
  }

  predicate DistinctKeys(entries: seq<Entry>) {
    forall i, j :: 0 <= i < j < |entries| ==> entries[i].key != entries[j].key
  }

  /** Distinct keys, and every scalar, list and nested map expressible. */
  predicate Printable(entries: seq<Entry>) {
    && DistinctKeys(entries)
    && (forall i :: 0 <= i < |entries| ==> PrintableKey(entries[i].key) && PrintableTree(entries[i].value))
  }

  // Single lines.

  /** A laid out line whose content stands for `what`. */
  predicate Reads(content: string, what: Content) {
    Inline(content) && ReadContent(content) == what
  }

  lemma DashPlain()
    ensures Plain("- ") && !IsSpace('-')
  {
  }

  lemma ItemReads(x: Scalar)
    requires PrintableScalar(x)
    ensures Reads(ItemLine(x), Item(x))
  {
    hide ParseScalar, PrintScalar, PrintableScalar, Inline;
    var s := PrintScalar(x);
    ScalarRoundTrip(x);
    DashPlain();
    InlineAfter("- ", s);
    assert ItemLine(x)[2..] == s;
  }

  lemma InlineAfter(before: string, s: string)
    requires Inline(s) && before != "" && Plain(before) && !IsSpace(before[0])
    ensures Inline(before + s)
  {
    var t := before + s;
    assert t[|t| - 1] == s[|s| - 1];
  }

  lemma KeyPosition(key: string, rest: string)
    requires PrintableKey(key)
    ensures Find(key + ":" + rest, IsColon) == |key|
  {
    var content := key + ":" + rest;
    assert forall i :: 0 <= i < |key| ==> content[i] == key[i];
    FindIs(content, IsColon, |key|);
  }

  lemma KeyNotItem(key: string, rest: string)
    requires PrintableKey(key)
    ensures !StartsWith(key + ":" + rest, "- ")
  {
    var content := key + ":" + rest;
    if |key| >= 2 {
      assert content[0] == key[0] && content[1] == key[1];
      assert key[..2] == "- " || !(key[0] == '-' && key[1] == ' ');
    } else {
      assert content[|key|] == ':';
    }
  }

  lemma KeyParts(key: string, rest: string)
    requires PrintableKey(key)
    ensures (key + ":" + rest)[..|key|] == key && (key + ":" + rest)[|key| + 1..] == rest
  {
  }

  lemma ReadKey(key: string, rest: string)
    requires PrintableKey(key)
    ensures ReadContent(key + ":" + rest)
         == if Strip(rest) == "" then KeyOnly(key) else KeyValue(key, ParseScalar(Strip(rest)))
  {
    KeyPosition(key, rest);
    KeyNotItem(key, rest);
    KeyParts(key, rest);
    StripTrimmed(key);
  }

  lemma KeyReads(key: string)
    requires PrintableKey(key)
    ensures Reads(KeyLine(key), KeyOnly(key))
  {
    assert key + ":" + "" == KeyLine(key);
    ReadKey(key, "");
    StripTrimmed("");
    KeyInline(key);
  }

  lemma KeyInline(key: string)
    requires PrintableKey(key)
    ensures Inline(KeyLine(key)) && !IsSpace(KeyLine(key)[0])
  {
    var s := KeyLine(key);
    assert s[|key|] == ':';
    assert s[0] == if key == "" then ':' else key[0];
  }

  lemma ValueReads(key: string, x: Scalar)
    requires PrintableKey(key) && PrintableScalar(x)
    ensures Reads(ValueLine(key, x), KeyValue(key, x))
  {
    hide ReadContent, ParseScalar, PrintScalar, PrintableScalar, PrintableKey, Strip;
    var s := PrintScalar(x);
    ScalarRoundTrip(x);
    KeyInline(key);
    assert key + ":" + (Spaces(1) + s) == ValueLine(key, x);
    ReadKey(key, Spaces(1) + s);
    StripPadded(1, s);
    assert (KeyLine(key) + " ") + s == ValueLine(key, x);
    InlineAfter(KeyLine(key) + " ", s);
  }

  lemma InlineOneLine(text: string, n: nat, content: string)
    requires Inline(content) && text == Spaces(n) + content
    ensures OneLine(text) && BeforeHash(text) == text && Find(text, NotBlank) == n
  {
    forall i | 0 <= i < |text|
      ensures !IsHash(text[i]) && !IsBreak(text[i])
    {
      assert text[i] == if i < n then ' ' else content[i - n];
    }
    FindIs(text, IsHash, |text|);
    assert text[n] == content[0];
    FindIs(text, NotBlank, n);
  }

  /** A laid out line is read back with its indent. */
  lemma LineRoundTrip(line: Line)
    requires Inline(line.content) && line.indent % 2 == 0
    ensures var text := Spaces(line.indent) + line.content;
            OneLine(text) && !Insignificant(text) && ReadLine(text) == Ok(line)
  {
    InlineOneLine(Spaces(line.indent) + line.content, line.indent, line.content);
    StripPadded(line.indent, line.content);
  }

  ghost predicate WellLaid(lines: seq<Line>) {
    forall i :: 0 <= i < |lines| ==> Inline(lines[i].content) && lines[i].indent % 2 == 0
  }

  lemma {:induction false} ReadRendered(before: seq<Line>, lines: seq<Line>)
    requires WellLaid(lines)
    ensures ReadMore(Ok(before), Render(lines)) == Ok(before + lines)
    decreases |lines|
  {
    hide ReadLine, Insignificant, Inline;
    if lines == [] {
      assert before + lines == before;
    } else {
      var text := Spaces(lines[0].indent) + lines[0].content;
      LineRoundTrip(lines[0]);
      AddSignificant(before, text, lines[0]);
      ReadRendered(before + [lines[0]], lines[1..]);
      assert Render(lines) == [text] + Render(lines[1..]);
      assert before + lines == before + [lines[0]] + lines[1..];
    }
  }

  lemma AddSignificant(before: seq<Line>, text: string, line: Line)
    requires !Insignificant(text) && ReadLine(text) == Ok(line)
    ensures AddLine(Ok(before), text) == Ok(before + [line])
  {
  }

  lemma RenderedOneLine(lines: seq<Line>)
    requires WellLaid(lines)
    ensures forall text <- Render(lines) :: OneLine(text)
  {
    forall text | text in Render(lines)
      ensures OneLine(text)
    {
      var i :| 0 <= i < |lines| && Render(lines)[i] == text;
      LineRoundTrip(lines[i]);
    }
  }

  // What the lines of a layout stand for.

  datatype Shape = Shape(indent: nat, what: Content)

  function Shapes(entries: seq<Entry>, indent: nat): seq<Shape> {
    if entries == [] then [] else EntryShapes(entries[0], indent) + Shapes(entries[1..], indent)
  }

  function EntryShapes(entry: Entry, indent: nat): (shapes: seq<Shape>)
    ensures shapes != [] && shapes[0].indent == indent && !shapes[0].what.Item?
  {
    match entry.value
    case Leaf(scalar) => [Shape(indent, KeyValue(entry.key, scalar))]
    case ListOf(items) => [Shape(indent, KeyOnly(entry.key))] + ItemShapes(items, indent + 2)
    case MapOf(entries) => [Shape(indent, KeyOnly(entry.key))] + Shapes(entries, indent + 2)
  }

  function ItemShapes(items: seq<Scalar>, indent: nat): (shapes: seq<Shape>)
    ensures |shapes| == |items|
    ensures forall i :: 0 <= i < |items| ==> shapes[i] == Shape(indent, Item(items[i]))
  {
    if items == [] then [] else [Shape(indent, Item(items[0]))] + ItemShapes(items[1..], indent)
  }

  ghost predicate ShowsLine(line: Line, shape: Shape) {
    line.indent == shape.indent && line.indent % 2 == 0 && Reads(line.content, shape.what)
  }

  ghost predicate Shows(lines: seq<Line>, shapes: seq<Shape>) {
    |lines| == |shapes| && forall i :: 0 <= i < |lines| ==> ShowsLine(lines[i], shapes[i])
  }

  lemma ShowsConcat(a: seq<Line>, s: seq<Shape>, b: seq<Line>, t: seq<Shape>)
    requires Shows(a, s) && Shows(b, t)
    ensures Shows(a + b, s + t)
  {
  }

  lemma {:induction false} ItemsShow(items: seq<Scalar>, indent: nat)
    requires PrintableItems(items) && indent % 2 == 0
    ensures Shows(LayoutItems(items, indent), ItemShapes(items, indent))
  {
    hide Reads, ItemLine, PrintableScalar;
    if items != [] {
      ItemReads(items[0]);
      ItemsShow(items[1..], indent);
      ShowsConcat([Line(indent, ItemLine(items[0]))], [Shape(indent, Item(items[0]))],
                  LayoutItems(items[1..], indent), ItemShapes(items[1..], indent));
    }
  }

  lemma {:induction false} LayoutShows(entries: seq<Entry>, indent: nat)
    requires Printable(entries) && indent % 2 == 0
    ensures Shows(Layout(entries, indent), Shapes(entries, indent))
  {
    hide LayoutEntry, EntryShapes, PrintableKey, PrintableTree, ShowsLine;
    if entries != [] {
      EntryShows(entries[0], indent);
      LayoutShows(entries[1..], indent);
      ShowsConcat(LayoutEntry(entries[0], indent), EntryShapes(entries[0], indent),
                  Layout(entries[1..], indent), Shapes(entries[1..], indent));
    }
  }

  lemma {:induction false} EntryShows(entry: Entry, indent: nat)
    requires PrintableKey(entry.key) && PrintableTree(entry.value) && indent % 2 == 0
    ensures Shows(LayoutEntry(entry, indent), EntryShapes(entry, indent))
  {
    hide Reads, KeyLine, ValueLine, PrintableKey, PrintableScalar, Printable, PrintableItems;
    var line, shape := [Line(indent, KeyLine(entry.key))], [Shape(indent, KeyOnly(entry.key))];
    match entry.value
    case Leaf(scalar) =>
      ValueReads(entry.key, scalar);
    case ListOf(items) =>
      KeyReads(entry.key);
      ItemsShow(items, indent + 2);
      ShowsConcat(line, shape, LayoutItems(items, indent + 2), ItemShapes(items, indent + 2));
    case MapOf(entries) =>
      KeyReads(entry.key);
      LayoutShows(entries, indent + 2);
      ShowsConcat(line, shape, Layout(entries, indent + 2), Shapes(entries, indent + 2));
  }

  // Whole blocks.

  /** Line `k` of `lines` and the ones after it stand for `shapes`. */
  ghost predicate ShowsAt(lines: seq<Line>, k: nat, shapes: seq<Shape>) {
    && k + |shapes| <= |lines|
    && forall i :: 0 <= i < |shapes| ==>
         lines[k + i].indent == shapes[i].indent && ReadContent(lines[k + i].content) == shapes[i].what
  }

  /** What follows a finished entry is not part of it. */
  ghost predicate Ends(lines: seq<Line>, e: nat, indent: nat) {
    e <= |lines| && (e < |lines| ==> lines[e].indent <= indent)
  }

  lemma ShowsSplit(lines: seq<Line>, k: nat, a: seq<Shape>, b: seq<Shape>)
    requires ShowsAt(lines, k, a + b)
    ensures ShowsAt(lines, k, a) && ShowsAt(lines, k + |a|, b)
  {
    forall i | 0 <= i < |a|
      ensures lines[k + i].indent == a[i].indent && ReadContent(lines[k + i].content) == a[i].what
    {
      assert (a + b)[i] == a[i];
    }
    forall i | 0 <= i < |b|
      ensures lines[k + |a| + i].indent == b[i].indent && ReadContent(lines[k + |a| + i].content) == b[i].what
    {
      assert (a + b)[|a| + i] == b[i];
      assert k + (|a| + i) == k + |a| + i;
    }
  }

  lemma ItemsSplit(lines: seq<Line>, k: nat, items: seq<Scalar>, indent: nat)
    requires items != [] && ShowsAt(lines, k, ItemShapes(items, indent))
    ensures k + |items| <= |lines|
    ensures lines[k].indent == indent && ReadContent(lines[k].content) == Item(items[0])
    ensures ShowsAt(lines, k + 1, ItemShapes(items[1..], indent))
  {
    hide ReadContent;
    ShowsSplit(lines, k, [Shape(indent, Item(items[0]))], ItemShapes(items[1..], indent));
    assert lines[k + 0].indent == indent;
  }

  lemma {:induction false} ParseItems(lines: seq<Line>, k: nat, items: seq<Scalar>, indent: nat, so: seq<Scalar>)
    requires ShowsAt(lines, k, ItemShapes(items, indent))
    ensures ParseFrom(lines, k, indent, [], Some(so)) == ParseFrom(lines, k + |items|, indent, [], Some(so + items))
    decreases |items|
  {
    hide ReadContent, ShowsAt, ParseFrom;
    if items == [] {
      assert so + items == so;
    } else {
      ItemsSplit(lines, k, items, indent);
      TakeItem(lines, k, indent, Some(so), items[0]);
      ParseItems(lines, k + 1, items[1..], indent, so + [items[0]]);
      assert so + [items[0]] + items[1..] == so + items;
    }
  }

  lemma {:induction false} PutNew(mapping: seq<Entry>, entry: Entry)
    requires forall i :: 0 <= i < |mapping| ==> mapping[i].key != entry.key
    ensures Put(mapping, entry.key, entry.value) == mapping + [entry]
  {
    if mapping != [] {
      PutNew(mapping[1..], entry);
    }
  }

  lemma BlockEnds(lines: seq<Line>, k: nat, indent: nat, mapping: seq<Entry>, items: Option<seq<Scalar>>)
    requires Dedented(lines, k, indent) && k <= |lines|
    ensures ParseFrom(lines, k, indent, mapping, items)
         == Block(if items.Some? then ListOf(items.value) else MapOf(mapping), k)
  {
  }

  lemma ParseList(lines: seq<Line>, k: nat, items: seq<Scalar>, indent: nat)
    requires items != [] && ShowsAt(lines, k, ItemShapes(items, indent)) && Dedented(lines, k + |items|, indent)
    ensures ParseFrom(lines, k, indent, [], None) == Block(ListOf(items), k + |items|)
  {
    hide ReadContent, ShowsAt, ParseFrom;
    ItemsSplit(lines, k, items, indent);
    TakeItem(lines, k, indent, None, items[0]);
    ParseItems(lines, k + 1, items[1..], indent, [] + [items[0]]);
    assert [] + [items[0]] + items[1..] == items;
    BlockEnds(lines, k + |items|, indent, [], Some(items));
  }

  lemma NestedEntry(lines: seq<Line>, k: nat, indent: nat, key: string, tree: Tree, next: nat)
    requires k + 1 < |lines| && lines[k + 1].indent > indent
    requires ParseFrom(lines, k + 1, indent + 2, [], None) == Block(tree, next)
    ensures ParseEntry(lines, k, indent, KeyOnly(key)) == Keyed(Entry(key, tree), next)
  {
  }

  lemma {:induction false} ParseOneEntry(lines: seq<Line>, k: nat, entry: Entry, indent: nat)
    requires PrintableTree(entry.value)
    requires ShowsAt(lines, k, EntryShapes(entry, indent)) && Ends(lines, k + |EntryShapes(entry, indent)|, indent)
    ensures ParseEntry(lines, k, indent, EntryShapes(entry, indent)[0].what)
         == Keyed(entry, k + |EntryShapes(entry, indent)|)
    decreases entry
  {
    hide ReadContent;
    match entry.value
    case Leaf(scalar) =>
    case ListOf(items) =>
      ShowsSplit(lines, k, [Shape(indent, KeyOnly(entry.key))], ItemShapes(items, indent + 2));
      assert lines[k + 1 + 0].indent == indent + 2;
      ParseList(lines, k + 1, items, indent + 2);
      NestedEntry(lines, k, indent, entry.key, entry.value, k + 1 + |items|);
    case MapOf(entries) =>
      ShowsSplit(lines, k, [Shape(indent, KeyOnly(entry.key))], Shapes(entries, indent + 2));
      if entries != [] {
        ParseMap(lines, k + 1, entries, indent + 2);
        NestedEntry(lines, k, indent, entry.key, entry.value, k + 1 + |Shapes(entries, indent + 2)|);
      }
  }

  lemma {:induction false} ParseMap(lines: seq<Line>, k: nat, entries: seq<Entry>, indent: nat)
    requires Printable(entries) && entries != []
    requires ShowsAt(lines, k, Shapes(entries, indent)) && Dedented(lines, k + |Shapes(entries, indent)|, indent)
    ensures k < |lines| && lines[k].indent == indent
    ensures ParseFrom(lines, k, indent, [], None) == Block(MapOf(entries), k + |Shapes(entries, indent)|)
    decreases entries, 1
  {
    hide ReadContent;
    ShapesStart(entries, indent);
    assert lines[k + 0].indent == indent;
    ParseEntries(lines, k, entries, indent, []);
    assert [] + entries == entries;
    BlockEnds(lines, k + |Shapes(entries, indent)|, indent, entries, None);
  }

  lemma ShapesStart(entries: seq<Entry>, indent: nat)
    ensures entries == [] <==> Shapes(entries, indent) == []
    ensures entries != [] ==> Shapes(entries, indent)[0].indent == indent
  {
  }

  lemma EntriesEnd(lines: seq<Line>, k: nat, entries: seq<Entry>, indent: nat)
    requires ShowsAt(lines, k, Shapes(entries, indent)) && Ends(lines, k + |Shapes(entries, indent)|, indent)
    ensures Ends(lines, k, indent)
  {
    ShapesStart(entries, indent);
    if Shapes(entries, indent) != [] {
      assert lines[k + 0].indent == indent;
    }
  }

  lemma DistinctSplit(mapping: seq<Entry>, entries: seq<Entry>)
    requires Printable(entries) && entries != [] && DistinctKeys(mapping + entries)
    ensures DistinctKeys(mapping + [entries[0]]) && PrintableTree(entries[0].value) && Printable(entries[1..])
    ensures mapping + [entries[0]] + entries[1..] == mapping + entries
  {
    hide PrintableTree, PrintableKey;
    var all := mapping + entries;
    assert forall i :: 0 <= i <= |mapping| ==> (mapping + [entries[0]])[i] == all[i];
  }

  lemma {:induction false} ParseEntries(lines: seq<Line>, k: nat, entries: seq<Entry>, indent: nat, mapping: seq<Entry>)
    requires Printable(entries) && DistinctKeys(mapping + entries)
    requires ShowsAt(lines, k, Shapes(entries, indent)) && Ends(lines, k + |Shapes(entries, indent)|, indent)
    ensures ParseFrom(lines, k, indent, mapping, None)
         == ParseFrom(lines, k + |Shapes(entries, indent)|, indent, mapping + entries, None)
    decreases entries, 0
  {
    hide ReadContent, PrintableTree, PrintableKey, DistinctKeys, Put, ParseEntry, ParseFrom, Printable, EntryShapes,
      ShowsAt;
    if entries == [] {
      assert mapping + entries == mapping;
    } else {
      var first := EntryShapes(entries[0], indent);
      var next := k + |first|;
      DistinctSplit(mapping, entries);
      ShowsSplit(lines, k, first, Shapes(entries[1..], indent));
      EntriesEnd(lines, next, entries[1..], indent);
      ParseOneEntry(lines, k, entries[0], indent);
      TakeNew(lines, k, indent, mapping, entries[0], next, first);
      ParseEntries(lines, next, entries[1..], indent, mapping + [entries[0]]);
    }
  }

  lemma TakeNew(lines: seq<Line>, k: nat, indent: nat, mapping: seq<Entry>, entry: Entry, next: nat, shapes: seq<Shape>)
    requires DistinctKeys(mapping + [entry])
    requires shapes != [] && ShowsAt(lines, k, shapes) && shapes[0].indent == indent && !shapes[0].what.Item?
    requires ParseEntry(lines, k, indent, shapes[0].what) == Keyed(entry, next)
    ensures ParseFrom(lines, k, indent, mapping, None) == ParseFrom(lines, next, indent, mapping + [entry], None)
  {
    assert lines[k + 0].indent == indent;
    forall i | 0 <= i < |mapping|
      ensures mapping[i].key != entry.key
    {
      assert (mapping + [entry])[i].key != (mapping + [entry])[|mapping|].key;
    }
    PutNew(mapping, entry);
    TakeEntry(lines, k, indent, mapping, entry, next);
  }

  lemma ParseWhole(lines: seq<Line>, entries: seq<Entry>)
    requires Printable(entries) && Shows(lines, Shapes(entries, 0))
    ensures ParseBlock(lines, 0, 0) == Block(MapOf(entries), |lines|)
  {
    hide ReadContent, Inline;
    if entries != [] {
      assert forall i :: 0 <= i < |lines| ==> ShowsLine(lines[i], Shapes(entries, 0)[i]);
      ParseMap(lines, 0, entries, 0);
    }
  }

  /** Parsing a printed tree gives the tree, keys in the same order. */
  lemma ParsePrinted(entries: seq<Entry>)
    requires Printable(entries)
    ensures ParseText(PrintText(entries)) == Ok(entries)
  {
    hide ReadContent, Inline, Printable, LayoutEntry, EntryShapes, SplitLines, Unlines, Render, ReadMore;
    var lines := Layout(entries, 0);
    LayoutShows(entries, 0);
    ReadRendered([], lines);
    RenderedOneLine(lines);
    SplitUnlines(Render(lines));
    assert [] + lines == lines;
    ParseWhole(lines, entries);
  }

  // Every tree the parser returns can be printed.

  ghost predicate PrintableContent(what: Content) {
    match what
    case Item(scalar) => PrintableScalar(scalar)
    case KeyValue(key, scalar) => PrintableKey(key) && PrintableScalar(scalar)
    case KeyOnly(key) => PrintableKey(key)
    case NoColon => true
  }

  lemma StripOfPlain(s: string)
    requires Plain(s)
    ensures Plain(Strip(s)) && Plain(RStrip(s))
  {
  }

  lemma PartOfPlain(s: string, i: nat, j: nat)
    requires Plain(s) && i <= j <= |s|
    ensures Plain(s[i..j])
  {
  }

  /** A key keeps the first character of its line. */
  lemma KeyOfLine(content: string, colon: nat)
    requires Trimmed(content) && Plain(content) && colon == Find(content, IsColon) < |content|
    requires !StartsWith(content, "- ")
    ensures PrintableKey(Strip(content[..colon]))
  {
    hide IsSpace, IsBreak, IsHash, StartsWith;
    var before := content[..colon];
    var key := Strip(before);
    PartOfPlain(content, 0, colon);
    StripOfPlain(before);
    StripIsTrimmed(before);
    if before != "" {
      assert !IsSpace(before[0]);
      FindIs(before, NotSpace, 0);
    }
    assert key == before[..|key|] == content[..|key|];
    FindIs(key, IsColon, |key|);
    PrefixStarts(content, |key|);
  }

  lemma PrefixStarts(content: string, n: nat)
    requires n <= |content| && !StartsWith(content, "- ")
    ensures !StartsWith(content[..n], "- ")
  {
    if n >= 2 {
      assert content[..n][0] == content[0] && content[..n][1] == content[1];
      assert content[0] != '-' || content[1] != ' ' by { assert content[..2] != "- "; }
    }
  }

  lemma ContentPrintable(content: string)
    requires Trimmed(content) && Plain(content)
    ensures PrintableContent(ReadContent(content))
  {
    hide PrintableKey, PrintableScalar, ParseScalar, Strip, Trimmed, Plain;
    var colon := Find(content, IsColon);
    if StartsWith(content, "- ") {
      TailScalar(content, 2);
    } else if colon < |content| {
      KeyOfLine(content, colon);
      TailScalar(content, colon + 1);
    }
  }

  lemma TailScalar(content: string, n: nat)
    requires n <= |content| && Plain(content)
    ensures PrintableScalar(ParseScalar(content[n..])) && PrintableScalar(ParseScalar(Strip(content[n..])))
  {
    hide PrintableScalar, ParseScalar, Strip;
    ParsedScalarPrintable(content[n..]);
    StripOfPlain(content[n..]);
    ParsedScalarPrintable(Strip(content[n..]));
  }

  ghost predicate PrintableLines(lines: seq<Line>) {
    forall i :: 0 <= i < |lines| ==> PrintableContent(ReadContent(lines[i].content))
  }

  lemma ReadLinePrintable(original: string)
    requires OneLine(original)
    ensures var content := Strip(RStrip(BeforeHash(original)));
            Trimmed(content) && Plain(content)
  {
    assert Plain(BeforeHash(original));
    StripOfPlain(BeforeHash(original));
    StripOfPlain(RStrip(BeforeHash(original)));
    StripIsTrimmed(RStrip(BeforeHash(original)));
  }

  lemma {:induction false} ReadPrintable(before: seq<Line>, originals: seq<string>)
    requires PrintableLines(before)
    requires forall i :: 0 <= i < |originals| ==> OneLine(originals[i])
    ensures ReadMore(Ok(before), originals).Ok? ==> PrintableLines(ReadMore(Ok(before), originals).value)
    decreases |originals|
  {
    hide ReadContent, PrintableContent, Insignificant, Strip, RStrip, BeforeHash, OneLine;
    if originals != [] {
      ReadLinePrintable(originals[0]);
      ContentPrintable(Strip(RStrip(BeforeHash(originals[0]))));
      var added := AddLine(Ok(before), originals[0]);
      if added.Ok? {
        ReadPrintable(added.value, originals[1..]);
      } else {
        ErrorStays(added.error, originals[1..]);
      }
    }
  }

  lemma {:induction false} SplitLinesOneLine(text: string)
    ensures forall i :: 0 <= i < |SplitLines(text)| ==> OneLine(SplitLines(text)[i])
    decreases |text|
  {
    if text != "" {
      var n := Find(text, IsBreak);
      if n < |text| {
        SplitLinesOneLine(text[n + (if n + 1 < |text| && text[n] == '\r' && text[n + 1] == '\n' then 2 else 1)..]);
      }
      assert OneLine(text[..n]);
    }
  }

  lemma {:induction false} PutKeys(mapping: seq<Entry>, key: string, value: Tree, other: string)
    requires other != key && forall i :: 0 <= i < |mapping| ==> mapping[i].key != other
    ensures forall i :: 0 <= i < |Put(mapping, key, value)| ==> Put(mapping, key, value)[i].key != other
  {
    if mapping != [] && mapping[0].key != key {
      PutKeys(mapping[1..], key, value, other);
    }
  }

  lemma {:induction false} PutPrintable(mapping: seq<Entry>, key: string, value: Tree)
    requires Printable(mapping) && PrintableKey(key) && PrintableTree(value)
    ensures Printable(Put(mapping, key, value))
  {
    hide PrintableKey, PrintableTree;
    if mapping != [] && mapping[0].key != key {
      assert Printable(mapping[1..]);
      PutPrintable(mapping[1..], key, value);
      PutKeys(mapping[1..], key, value, mapping[0].key);
    }
  }

  lemma AddPrintable(items: seq<Scalar>, x: Scalar)
    requires PrintableItems(items) && PrintableScalar(x)
    ensures PrintableItems(items + [x])
  {
    hide PrintableScalar;
  }

  /** What `ParseFrom` may be given and what it then returns. */
  ghost predicate PrintableProgress(mapping: seq<Entry>, items: Option<seq<Scalar>>) {
    Printable(mapping) && (items.Some? ==> items.value != [] && PrintableItems(items.value))
  }

  lemma {:induction false} ParsedPrintable(lines: seq<Line>, index: nat, indent: nat, mapping: seq<Entry>,
                                           items: Option<seq<Scalar>>)
    requires index <= |lines| && PrintableLines(lines) && PrintableProgress(mapping, items)
    ensures var r := ParseFrom(lines, index, indent, mapping, items); r.Block? ==> PrintableTree(r.tree)
    decreases |lines| - index, 1
  {
    hide ReadContent, PrintableKey, PrintableScalar, Printable, PrintableItems, Put, ParseEntry;
    if index < |lines| && lines[index].indent == indent {
      var what := ReadContent(lines[index].content);
      assert PrintableContent(what);
      if what.Item? {
        if mapping == [] {
          var so := if items.None? then [] else items.value;
          assert PrintableItems(so) by { NoItems(); }
          AddPrintable(so, what.scalar);
          ParsedPrintable(lines, index + 1, indent, mapping, Some(so + [what.scalar]));
        }
      } else if items.None? {
        var r := ParseEntry(lines, index, indent, what);
        if r.Keyed? {
          EntryPrintable(lines, index, indent, what);
          PutPrintable(mapping, r.entry.key, r.entry.value);
          ParsedPrintable(lines, r.next, indent, Put(mapping, r.entry.key, r.entry.value), None);
        }
      }
    }
  }

  lemma NoItems()
    ensures PrintableItems([]) && Printable([])
  {
  }

  lemma {:induction false} EntryPrintable(lines: seq<Line>, index: nat, indent: nat, what: Content)
    requires index < |lines| && PrintableLines(lines) && !what.Item? && PrintableContent(what)
    ensures var r := ParseEntry(lines, index, indent, what);
            r.Keyed? ==> PrintableKey(r.entry.key) && PrintableTree(r.entry.value)
    decreases |lines| - index, 0
  {
    hide ReadContent, PrintableKey, PrintableScalar, Printable, PrintableItems, ParseFrom;
    NoItems();
    if what.KeyOnly? && index + 1 < |lines| {
      ParsedPrintable(lines, index + 1, indent + 2, [], None);
    }
  }

  /** Whatever was read, printing it gives a text that reads as the same tree. */
  lemma ParsePrintParse(text: string)
    requires ParseText(text).Ok?
    ensures Printable(ParseText(text).value)
    ensures ParseText(PrintText(ParseText(text).value)) == ParseText(text)
  {
    hide Printable, ReadMore, ParseFrom, PrintText, PrintableLines;
    SplitLinesOneLine(text);
    assert PrintableLines([]) by { NoLines(); }
    ReadPrintable([], SplitLines(text));
    NoItems();
    ParsedPrintable(ReadLines(SplitLines(text)).value, 0, 0, [], None);
    ParsePrinted(ParseText(text).value);
  }

  lemma NoLines()
    ensures PrintableLines([])
  {
  }
}
