/** The indentation parser of the configuration file. */
module YamlParser {
  import opened Basics
  import opened YamlText
  import opened YamlScalar

  datatype Line = Line(indent: nat, content: string)

  /** Maps keep the insertion order of the dictionary they stand for. */
  datatype Tree = Leaf(scalar: Scalar) | ListOf(items: seq<Scalar>) | MapOf(entries: seq<Entry>)

  datatype Entry = Entry(key: string, value: Tree)

  /** The reader reports a line number with `OddIndent`; the number is not part of the model. */
  datatype Error =
    | OddIndent
    | UnexpectedIndent(content: string)
    | ListAfterMap
    | MapAfterList
    | MissingColon(content: string)
    | TopLevelNotMap

  /** A blank or comment line is skipped before its indent is looked at. */
  predicate Insignificant(original: string) {
    Strip(RStrip(BeforeHash(original))) == ""
  }

  function ReadLine(original: string): Result<Line, Error>
    requires !Insignificant(original)
  {
    var indent := Find(original, NotBlank);
    if indent % 2 != 0 then Err(OddIndent) else Ok(Line(indent, Strip(RStrip(BeforeHash(original)))))
  }

  function AddLine(lines: Result<seq<Line>, Error>, original: string): Result<seq<Line>, Error> {
    if lines.Err? || Insignificant(original) then lines
    else
      match ReadLine(original)
      case Err(error) => Err(error)
      case Ok(line) => Ok(lines.value + [line])
  }

  function ReadMore(lines: Result<seq<Line>, Error>, originals: seq<string>): Result<seq<Line>, Error>
    decreases |originals|
  {
    if originals == [] then lines else ReadMore(AddLine(lines, originals[0]), originals[1..])
  }

  function ReadLines(originals: seq<string>): Result<seq<Line>, Error> {
    ReadMore(Ok([]), originals)
  }

  /** `mapping[key] = value` */
  function Put(mapping: seq<Entry>, key: string, value: Tree): (after: seq<Entry>)
    ensures |after| > 0
  {
    if mapping == [] then [Entry(key, value)]
    else if mapping[0].key == key then [Entry(key, value)] + mapping[1..]
    else [mapping[0]] + Put(mapping[1..], key, value)
  }

  /** What the content of a significant line says on its own. */
  datatype Content = Item(scalar: Scalar) | KeyValue(key: string, scalar: Scalar) | KeyOnly(key: string) | NoColon

  function ReadContent(content: string): Content {
    var colon := Find(content, IsColon);
    if StartsWith(content, "- ") then Item(ParseScalar(content[2..]))
    else if colon == |content| then NoColon
    else
      var key, rest := Strip(content[..colon]), Strip(content[colon + 1..]);
      if rest == "" then KeyOnly(key) else KeyValue(key, ParseScalar(rest))
  }

  /** What `parse_block` returns, and what one of its `key: value` lines amounts to. */
  datatype Block = Block(tree: Tree, next: nat) | BadBlock(error: Error)

  datatype Keyed = Keyed(entry: Entry, next: nat) | BadEntry(error: Error)

  predicate Dedented(lines: seq<Line>, index: nat, indent: nat) {
    index >= |lines| || lines[index].indent < indent
  }

  /** What `parse_block(index, indent)` goes on to return from the middle of its loop. A successful block stops only at
      the end of the text or before a line that is indented less. */
  function ParseFrom(lines: seq<Line>, index: nat, indent: nat, mapping: seq<Entry>, items: Option<seq<Scalar>>)
    : (r: Block)
    requires index <= |lines|
    ensures r.Block? ==> index <= r.next <= |lines| && Dedented(lines, r.next, indent)
    decreases |lines| - index, 1
  {
    if index == |lines| || lines[index].indent < indent then
      Block(if items.Some? then ListOf(items.value) else MapOf(mapping), index)
    else
      if lines[index].indent > indent then BadBlock(UnexpectedIndent(lines[index].content))
      else
        match ReadContent(lines[index].content)
        case Item(item) =>
          if mapping != [] then BadBlock(ListAfterMap)
          else
            ParseFrom(lines, index + 1, indent, mapping, Some((if items.None? then [] else items.value) + [item]))
        case content =>
          if items.Some? then BadBlock(MapAfterList)
          else
            match ParseEntry(lines, index, indent, content)
            case BadEntry(error) => BadBlock(error)
            case Keyed(entry, next) => ParseFrom(lines, next, indent, Put(mapping, entry.key, entry.value), items)
  }

  /** One `key: value` line with the block below it, if any. */
  function ParseEntry(lines: seq<Line>, index: nat, indent: nat, content: Content): (r: Keyed)
    requires index < |lines| && !content.Item?
    ensures r.Keyed? ==> index < r.next <= |lines|
    decreases |lines| - index, 0
  {
    match content
    case NoColon => BadEntry(MissingColon(lines[index].content))
    case KeyValue(key, scalar) => Keyed(Entry(key, Leaf(scalar)), index + 1)
    case KeyOnly(key) =>
      if index + 1 < |lines| && lines[index + 1].indent > indent then
        match ParseFrom(lines, index + 1, indent + 2, [], None)
        case BadBlock(error) => BadEntry(error)
        case Block(child, next) => Keyed(Entry(key, child), next)
      else Keyed(Entry(key, MapOf([])), index + 1)
  }

  function ParseBlock(lines: seq<Line>, index: nat, indent: nat): Block
    requires index <= |lines|
  {
    ParseFrom(lines, index, indent, [], None)
  }

  function ParseText(text: string): Result<seq<Entry>, Error> {
    match ReadLines(SplitLines(text))
    case Err(error) => Err(error)
    case Ok(lines) =>
      match ParseBlock(lines, 0, 0)
      case BadBlock(error) => Err(error)
      case Block(MapOf(entries), _) => Ok(entries)
      case Block(_, _) => Err(TopLevelNotMap)
  }

  // The reader itself.

  method ReadSignificant(originals: seq<string>) returns (lines: Result<seq<Line>, Error>)
    ensures lines == ReadLines(originals)
  {
    var found: seq<Line> := [];
    var n := 0;
    while n < |originals|
      invariant n <= |originals| && ReadLines(originals) == ReadMore(Ok(found), originals[n..])
    {
      var stripped := RStrip(BeforeHash(originals[n]));
      if Strip(stripped) != "" {
        var indent := Find(originals[n], NotBlank);
        if indent % 2 != 0 {
          ErrorStays(OddIndent, originals[n + 1..]);
          return Err(OddIndent);
        }
        found := found + [Line(indent, Strip(stripped))];
      }
      n := n + 1;
    }
    return Ok(found);
  }

  lemma {:induction false} ErrorStays(error: Error, originals: seq<string>)
    ensures ReadMore(Err(error), originals) == Err(error)
  {
    if originals != [] {
      ErrorStays(error, originals[1..]);
    }
  }

  lemma TakeItem(lines: seq<Line>, index: nat, indent: nat, items: Option<seq<Scalar>>, item: Scalar)
    requires index < |lines| && lines[index].indent == indent && ReadContent(lines[index].content) == Item(item)
    ensures ParseFrom(lines, index, indent, [], items)
         == ParseFrom(lines, index + 1, indent, [], Some((if items.None? then [] else items.value) + [item]))
  {
  }

  lemma TakeEntry(lines: seq<Line>, index: nat, indent: nat, mapping: seq<Entry>, entry: Entry, next: nat)
    requires index < |lines| && lines[index].indent == indent && !ReadContent(lines[index].content).Item?
    requires ParseEntry(lines, index, indent, ReadContent(lines[index].content)) == Keyed(entry, next)
    ensures ParseFrom(lines, index, indent, mapping, None)
         == ParseFrom(lines, next, indent, Put(mapping, entry.key, entry.value), None)
  {
  }

  method ParseBlockAt(lines: seq<Line>, start: nat, indent: nat) returns (r: Block)
    requires start <= |lines|
    ensures r == ParseBlock(lines, start, indent)
    decreases |lines| - start, 2
  {
    var index := start;
    var mapping: seq<Entry> := [];
    var items: Option<seq<Scalar>> := None;
    while index < |lines| && lines[index].indent >= indent
      invariant start <= index <= |lines|
      invariant ParseBlock(lines, start, indent) == ParseFrom(lines, index, indent, mapping, items)
    {
      var error;
      error, index, mapping, items := ParseLine(lines, index, indent, mapping, items);
      if error.Some? {
        return BadBlock(error.value);
      }
    }
    return Block(if items.Some? then ListOf(items.value) else MapOf(mapping), index);
  }

  /** The body of the loop of `parse_block`. */
  method ParseLine(lines: seq<Line>, index: nat, indent: nat, mapping: seq<Entry>, items: Option<seq<Scalar>>)
    returns (error: Option<Error>, next: nat, mapping': seq<Entry>, items': Option<seq<Scalar>>)
    requires index < |lines| && lines[index].indent >= indent
    ensures error.Some? ==> ParseFrom(lines, index, indent, mapping, items) == BadBlock(error.value)
    ensures error.None? ==>
              && index < next <= |lines|
              && ParseFrom(lines, index, indent, mapping, items) == ParseFrom(lines, next, indent, mapping', items')
    decreases |lines| - index, 1
  {
    hide ReadContent, Put, ParseEntry;
    error, next, mapping', items' := None, index, mapping, items;
    var Line(current, text) := lines[index];
    if current > indent {
      error := Some(UnexpectedIndent(text));
    } else {
      var content := ReadContent(text);
      if content.Item? {
        if mapping != [] {
          error := Some(ListAfterMap);
        } else {
          items' := Some((if items.None? then [] else items.value) + [content.scalar]);
          next := index + 1;
        }
      } else if items.Some? {
        error := Some(MapAfterList);
      } else {
        var entry := ParseEntryAt(lines, index, current, content);
        if entry.BadEntry? {
          error := Some(entry.error);
        } else {
          mapping', next := Put(mapping, entry.entry.key, entry.entry.value), entry.next;
        }
      }
    }
  }

  method ParseEntryAt(lines: seq<Line>, index: nat, current: nat, content: Content) returns (r: Keyed)
    requires index < |lines| && !content.Item?
    ensures r == ParseEntry(lines, index, current, content)
    decreases |lines| - index, 0
  {
    match content {
      case NoColon =>
        r := BadEntry(MissingColon(lines[index].content));
      case KeyValue(key, scalar) =>
        r := Keyed(Entry(key, Leaf(scalar)), index + 1);
      case KeyOnly(key) =>
        if index + 1 < |lines| && lines[index + 1].indent > current {
          var child := ParseBlockAt(lines, index + 1, current + 2);
          r := if child.BadBlock? then BadEntry(child.error) else Keyed(Entry(key, child.tree), child.next);
        } else {
          r := Keyed(Entry(key, MapOf([])), index + 1);
        }
    }
  }

  method ParseSimpleYaml(text: string) returns (r: Result<seq<Entry>, Error>)
    ensures r == ParseText(text)
  {
    var lines := ReadSignificant(SplitLines(text));
    if lines.Err? {
      return Err(lines.error);
    }
    var root := ParseBlockAt(lines.value, 0, 0);
    if root.BadBlock? {
      return Err(root.error);
    }
    if !root.tree.MapOf? {
      return Err(TopLevelNotMap);
    }
    return Ok(root.tree.entries);
  }

  // Facts about every text.

  /** A successful parse has used every significant line. */
  lemma ParseConsumesEverything(lines: seq<Line>)
    requires ParseBlock(lines, 0, 0).Block?
    ensures ParseBlock(lines, 0, 0).next == |lines|
  {
  }

  /** The lines of a text that are not skipped. */
  function Significant(originals: seq<string>): seq<string> {
    Filter(originals, (line: string) => !Insignificant(line))
  }

  lemma {:induction false} OnlySignificantLines(lines: Result<seq<Line>, Error>, originals: seq<string>)
    ensures ReadMore(lines, originals) == ReadMore(lines, Significant(originals))
    decreases |originals|
  {
    hide Insignificant, ReadLine;
    if originals != [] {
      var rest := originals[1..];
      OnlySignificantLines(AddLine(lines, originals[0]), rest);
      if Insignificant(originals[0]) {
        assert Significant(originals) == Significant(rest);
      } else {
        assert Significant(originals) == [originals[0]] + Significant(rest);
      }
    }
  }

  /** Texts with the same significant lines have the same result, whatever their line ends, blank lines and comment
      lines. */
  lemma SignificantLinesDecide(text: string, other: string)
    requires Significant(SplitLines(text)) == Significant(SplitLines(other))
    ensures ParseText(text) == ParseText(other)
  {
    hide Significant, SplitLines, ParseBlock;
    OnlySignificantLines(Ok([]), SplitLines(text));
    OnlySignificantLines(Ok([]), SplitLines(other));
  }

  /** In particular an inserted blank or comment line, at any place and any indent, never changes the result. */
  lemma CommentsDoNotMatter(text: string, other: string, before: seq<string>, blank: string, after: seq<string>)
    requires Insignificant(blank)
    requires SplitLines(text) == before + after && SplitLines(other) == before + [blank] + after
    ensures ParseText(other) == ParseText(text)
  {
    hide SplitLines, Insignificant, Filter, ParseText;
    FilterConcat(before, after, (line: string) => !Insignificant(line));
    FilterConcat(before + [blank], after, (line: string) => !Insignificant(line));
    FilterConcat(before, [blank], (line: string) => !Insignificant(line));
    FilterOne(blank, (line: string) => !Insignificant(line));
    SignificantLinesDecide(text, other);
  }

  /** A line is insignificant exactly when everything before its comment sign is white space. */
  lemma InsignificantMeansBlank(original: string)
    ensures Insignificant(original) <==>
            forall i :: 0 <= i < Find(original, IsHash) ==> IsSpace(original[i])
  {
    hide IsSpace, Strip;
    var s := BeforeHash(original);
    AllSpace(s);
    AllSpace(RStrip(s));
    assert forall i :: 0 <= i < |s| ==> s[i] == original[i];
  }

  lemma AllSpace(s: string)
    ensures RStrip(s) == "" <==> forall i :: 0 <= i < |s| ==> IsSpace(s[i])
    ensures Strip(s) == "" <==> forall i :: 0 <= i < |s| ==> IsSpace(s[i])
  {
    TrailingSpace(s);
    TrailingSpace(LStrip(s));
    var n := Find(s, NotSpace);
    if n < |s| {
      assert LStrip(s)[0] == s[n];
    }
  }

  lemma {:induction false} TrailingSpace(s: string)
    ensures Length(s) == 0 <==> forall i :: 0 <= i < |s| ==> IsSpace(s[i])
  {
    if s != "" && IsSpace(s[|s| - 1]) {
      TrailingSpace(s[..|s| - 1]);
    }
  }

  /** The text is read exactly when every significant line is indented by an even number of spaces. */
  lemma {:induction false} ReadsExactlyWhenEven(before: seq<Line>, originals: seq<string>)
    ensures ReadMore(Ok(before), originals).Ok? <==>
            forall i :: 0 <= i < |originals| && !Insignificant(originals[i]) ==> Find(originals[i], NotBlank) % 2 == 0
    decreases |originals|
  {
    hide Insignificant, Strip, RStrip, BeforeHash;
    if originals != [] {
      var added := AddLine(Ok(before), originals[0]);
      assert forall i :: 0 < i < |originals| ==> originals[i] == originals[1..][i - 1];
      if added.Ok? {
        ReadsExactlyWhenEven(added.value, originals[1..]);
      } else {
        ErrorStays(added.error, originals[1..]);
      }
    }
  }

  /** A key that comes again takes its place in the map and its new value. */
  lemma {:induction false} PutReplaces(mapping: seq<Entry>, key: string, value: Tree)
    ensures Entry(key, value) in Put(mapping, key, value)
    ensures forall e <- mapping :: e.key != key ==> e in Put(mapping, key, value)
    ensures |Put(mapping, key, value)| == |mapping| + if (exists e <- mapping :: e.key == key) then 0 else 1
  {
    if mapping != [] && mapping[0].key != key {
      PutReplaces(mapping[1..], key, value);
      assert mapping == [mapping[0]] + mapping[1..];
    }
  }
}
