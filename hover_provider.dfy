/**
  The hover resolver: the identifier under the cursor, extended leftwards over `a.b.c` chains,
  is looked up in the symbol store; after `:` the bare method name is looked up among the
  methods first. The resolver picks the items to document and the range to highlight; the
  documentation of those items, concatenated, is what the hover shows.
 */
module Hover {
  import opened Wrappers
  import opened Items
  import opened Autocompletion
  import opened HoverWord

  /** What the hover shows: the documentation entries and the highlighted range. */
  datatype HoverResult = HoverResult(contents: seq<string>, range: Range)

  /** What the hover resolves to: the items whose documentation is shown, and the range. */
  datatype HoverTarget = HoverTarget(items: seq<GluaItem>, range: Range)

  /** The documentation of several items, concatenated in order. */
  function DocsOf(items: seq<GluaItem>): seq<string>
  {
    if |items| == 0 then [] else DocsOf(items[..|items| - 1]) + Items.Documentation(items[|items| - 1])
  }

  /** The hover for a target: one item shows its own documentation, no item shows nothing. */
  function Render(t: HoverTarget): (r: HoverResult)
    ensures r.range == t.range
    ensures |t.items| == 0 ==> r.contents == []
    ensures |t.items| == 1 ==> r.contents == Items.Documentation(t.items[0])
  {
    assert |t.items| == 1 ==> DocsOf(t.items) == DocsOf(t.items[..0]) + Items.Documentation(t.items[0]);
    assert DocsOf(t.items[..0]) == [];
    HoverResult(DocsOf(t.items), t.range)
  }

  /** What the hover resolves to for the cursor at `column` of line number `lineNumber`, given the
      store's full-name map `values` and method-name map `methods`: nothing without a word there. */
  function HoverAt(values: map<string, GluaItem>, methods: map<string, seq<GluaItem>>,
                   line: string, lineNumber: int, column: int): (r: Option<HoverTarget>)
    requires 1 <= column <= |line| + 1
    ensures r.None? <==> GetWordAtPosition(line, column).None?
  {
    var w := GetWordAtPosition(line, column);
    if w.None? then None else Some(HoverFor(values, methods, line, lineNumber, w.value))
  }

  /** What the hover resolves to for a word: after `:`, every method of that bare name;
      otherwise the item of the chain ending with the word, or nothing. */
  function HoverFor(values: map<string, GluaItem>, methods: map<string, seq<GluaItem>>,
                    line: string, lineNumber: int, word: Word): (r: HoverTarget)
    requires 1 <= word.startColumn <= word.endColumn <= |line| + 1
    ensures r.range.startLineNumber == lineNumber == r.range.endLineNumber
    ensures 1 <= r.range.startColumn <= word.startColumn && r.range.endColumn == word.endColumn
    ensures |r.items| <= 1 || (CharAt(line, word.startColumn - 2) == Some(':') && word.word in methods)
  {
    if CharAt(line, word.startColumn - 2) == Some(':') && word.word in methods then
      HoverTarget(methods[word.word], Range(lineNumber, word.startColumn, lineNumber, word.endColumn))
    else
      LookupTarget(values, Chain(line, word),
        Range(lineNumber, DottedStart(line, word.startColumn - 1) + 1, lineNumber, word.endColumn))
  }

  /** The lookup of a chain: its item, or nothing on a miss. */
  function LookupTarget(values: map<string, GluaItem>, chain: string, range: Range): HoverTarget {
    if chain in values then HoverTarget([values[chain]], range) else HoverTarget([], range)
  }

  /** Without `:` and a method entry, and without a `.` before the word, the hover looks up the
      bare word over its own range. */
  lemma HoverForPlain(values: map<string, GluaItem>, methods: map<string, seq<GluaItem>>,
                      line: string, lineNumber: int, word: Word)
    requires 1 <= word.startColumn <= word.endColumn <= |line| + 1
    requires word.word == line[word.startColumn - 1..word.endColumn - 1]
    requires word.startColumn == 1 || !IsWordChar(line[word.startColumn - 2])
    requires CharAt(line, word.startColumn - 2) != Some('.')
    requires !(CharAt(line, word.startColumn - 2) == Some(':') && word.word in methods)
    ensures HoverFor(values, methods, line, lineNumber, word)
      == LookupTarget(values, word.word, Range(lineNumber, word.startColumn, lineNumber, word.endColumn))
  {
    PlainChain(line, word);
  }

  /** After `:` a word that names no method falls through to the plain lookup of the bare word,
      since the chain cannot extend past the `:`. */
  lemma ColonFallsThrough(values: map<string, GluaItem>, methods: map<string, seq<GluaItem>>,
                          line: string, lineNumber: int, column: int, w: Word)
    requires 1 <= column <= |line| + 1
    requires GetWordAtPosition(line, column) == Some(w)
    requires CharAt(line, w.startColumn - 2) == Some(':') && w.word !in methods
    ensures HoverAt(values, methods, line, lineNumber, column)
      == Some(HoverTarget(if w.word in values then [values[w.word]] else [],
                          Range(lineNumber, w.startColumn, lineNumber, w.endColumn)))
  {
    HoverForPlain(values, methods, line, lineNumber, w);
  }

  /** The `forEach` that concatenates the documentation of every method under one name. */
  method ConcatDocs(methods: seq<GluaItem>) returns (content: seq<string>)
    ensures content == DocsOf(methods)
  {
    content := [];
    for i := 0 to |methods|
      invariant content == DocsOf(methods[..i])
    {
      assert methods[..i + 1][..i] == methods[..i];
      content := content + Items.Documentation(methods[i]);
    }
    assert methods[..|methods|] == methods;
  }

  /** The lookup of the chain in the full-name map. */
  method LookupChain(values: map<string, GluaItem>, current: string, range: Range) returns (target: HoverTarget)
    ensures target == LookupTarget(values, current, range)
  {
    if current !in values {
      return HoverTarget([], range);
    }
    target := HoverTarget([values[current]], range);
  }

  /** After `.`: the walk over the chain and the lookup of the chain it builds. */
  method ResolveChain(values: map<string, GluaItem>, methods: map<string, seq<GluaItem>>,
                      line: string, lineUntil: string, lineNumber: int, word: Word)
    returns (target: HoverTarget)
    requires 1 <= word.startColumn <= word.endColumn <= |line| + 1
    requires word.word == line[word.startColumn - 1..word.endColumn - 1]
    requires word.startColumn == 1 || !IsWordChar(line[word.startColumn - 2])
    requires PrefixOf(lineUntil, line) && word.startColumn - 1 < |lineUntil|
    requires CharAt(line, word.startColumn - 2) == Some('.')
    ensures target == HoverFor(values, methods, line, lineNumber, word)
  {
    var first, current := WalkChain(line, lineUntil, word);
    target := LookupChain(values, current, Range(lineNumber, first.startColumn, lineNumber, word.endColumn));
  }

  /** `provideHover` once a word is found: the character before the word picks the branch. */
  method ResolveWord(values: map<string, GluaItem>, methods: map<string, seq<GluaItem>>,
                     line: string, lineUntil: string, lineNumber: int, word: Word)
    returns (target: HoverTarget)
    requires 1 <= word.startColumn <= word.endColumn <= |line| + 1
    requires word.word == line[word.startColumn - 1..word.endColumn - 1]
    requires word.startColumn == 1 || !IsWordChar(line[word.startColumn - 2])
    requires PrefixOf(lineUntil, line) && word.startColumn - 1 < |lineUntil|
    ensures target == HoverFor(values, methods, line, lineNumber, word)
  {
    var before := CharAt(lineUntil, word.startColumn - 2);
    assert before == CharAt(line, word.startColumn - 2);
    if before == Some('.') {
      target := ResolveChain(values, methods, line, lineUntil, lineNumber, word);
    } else if before == Some(':') && word.word in methods {
      target := HoverTarget(methods[word.word], Range(lineNumber, word.startColumn, lineNumber, word.endColumn));
    } else {
      HoverForPlain(values, methods, line, lineNumber, word);
      target := LookupChain(values, word.word, Range(lineNumber, word.startColumn, lineNumber, word.endColumn));
    }
  }

  /** `substring(0, column)` of the line keeps every character before the word under the cursor
      and the one before that. */
  lemma LineUntilCoversWord(line: string, column: int, w: Word)
    requires 1 <= column <= |line| + 1
    requires GetWordAtPosition(line, column) == Some(w)
    ensures var lineUntil := if column < |line| then line[..column] else line;
      PrefixOf(lineUntil, line) && w.startColumn - 1 < |lineUntil|
  {
    WordAtPositionShape(line, column);
  }

  /** `provideHover` on the store's full-name and method-name maps, up to the documentation:
      nothing without a word under the cursor. */
  method HoverAtCursor(values: map<string, GluaItem>, methods: map<string, seq<GluaItem>>,
                       line: string, lineNumber: int, column: int)
    returns (target: Option<HoverTarget>)
    requires 1 <= column <= |line| + 1
    ensures target == HoverAt(values, methods, line, lineNumber, column)
  {
    var lineUntil := if column < |line| then line[..column] else line;
    var w := GetWordAtPosition(line, column);
    if w.None? {
      return None;
    }
    LineUntilCoversWord(line, column, w.value);
    var t := ResolveWord(values, methods, line, lineUntil, lineNumber, w.value);
    target := Some(t);
  }

  /** `provideHover`, reading the symbol store: the documentation of the items the cursor
      resolves to, over their range. */
  method ProvideHover(data: AutocompletionData, line: string, lineNumber: int, column: int)
    returns (result: Option<HoverResult>)
    requires 1 <= column <= |line| + 1
    ensures var t := HoverAt(data.valuesLookup, data.methodsLookup, line, lineNumber, column);
      result == if t.None? then None else Some(Render(t.value))
  {
    var t := HoverAtCursor(data.valuesLookup, data.methodsLookup, line, lineNumber, column);
    if t.None? {
      return None;
    }
    var contents := ConcatDocs(t.value.items);
    result := Some(HoverResult(contents, t.value.range));
  }
}
