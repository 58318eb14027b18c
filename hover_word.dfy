/**
  The words and dotted chains of a line that the hover resolver works on: the identifier under
  the cursor, the word that ends at a position, and the leftward walk over `a.b.c` chains.
  Lines are single strings and columns are 1-based, as in the editor.
 */
module HoverWord {
  import opened Wrappers

  /** The Lua word pattern: letters, digits and `_`. */
  predicate IsWordChar(c: char) {
    ('A' <= c <= 'Z') || ('a' <= c <= 'z') || ('0' <= c <= '9') || c == '_'
  }

  /** The editor's word record: the text and the columns it spans, end exclusive. */
  datatype Word = Word(word: string, startColumn: int, endColumn: int)

  /** The start of the run of word characters that ends at offset `i`. */
  function WordStart(line: string, i: nat): (s: nat)
    requires i <= |line|
    ensures s <= i
    ensures s == 0 || !IsWordChar(line[s - 1])
  {
    if i > 0 && IsWordChar(line[i - 1]) then WordStart(line, i - 1) else i
  }

  lemma {:induction false} WordStartRun(line: string, i: nat)
    requires i <= |line|
    ensures forall k :: WordStart(line, i) <= k < i ==> IsWordChar(line[k])
  {
    if i > 0 && IsWordChar(line[i - 1]) {
      WordStartRun(line, i - 1);
    }
  }

  /** The end of the run of word characters that starts at offset `i`. */
  function WordEnd(line: string, i: nat): (e: nat)
    requires i <= |line|
    ensures i <= e <= |line|
    ensures e == |line| || !IsWordChar(line[e])
    decreases |line| - i
  {
    if i < |line| && IsWordChar(line[i]) then WordEnd(line, i + 1) else i
  }

  lemma {:induction false} WordEndRun(line: string, i: nat)
    requires i <= |line|
    ensures forall k :: i <= k < WordEnd(line, i) ==> IsWordChar(line[k])
    decreases |line| - i
  {
    if i < |line| && IsWordChar(line[i]) {
      WordEndRun(line, i + 1);
    }
  }

  /** `getWordAtPosition`: the run of word characters touching the cursor, if any. */
  function GetWordAtPosition(line: string, column: int): (r: Option<Word>)
    requires 1 <= column <= |line| + 1
    ensures r.Some? ==>
      && 1 <= r.value.startColumn <= column <= r.value.endColumn <= |line| + 1
      && r.value.word == line[r.value.startColumn - 1..r.value.endColumn - 1]
      && (r.value.startColumn == 1 || !IsWordChar(line[r.value.startColumn - 2]))
  {
    var s := WordStart(line, column - 1);
    var e := WordEnd(line, column - 1);
    if s == e then None else Some(Word(line[s..e], s + 1, e + 1))
  }

  /** Every character from the start to the end of the run around offset `i` is a word character. */
  lemma WordAround(line: string, i: nat)
    requires i <= |line|
    ensures forall k :: WordStart(line, i) <= k < WordEnd(line, i) ==> IsWordChar(line[k])
  {
    WordStartRun(line, i);
    WordEndRun(line, i);
  }

  /** There is no word exactly when neither character beside the cursor is a word character;
      otherwise the word is the maximal non-empty run of word characters containing the cursor. */
  lemma WordAtPositionShape(line: string, column: int)
    requires 1 <= column <= |line| + 1
    ensures var r := GetWordAtPosition(line, column);
      r.None? <==>
        (column - 1 == |line| || !IsWordChar(line[column - 1])) && (column == 1 || !IsWordChar(line[column - 2]))
    ensures var r := GetWordAtPosition(line, column);
      r.Some? ==>
        && r.value.word != ""
        && (forall k :: 0 <= k < |r.value.word| ==> IsWordChar(r.value.word[k]))
        && (r.value.endColumn == |line| + 1 || !IsWordChar(line[r.value.endColumn - 1]))
  {
    WordStartRun(line, column - 1);
    WordEndRun(line, column - 1);
  }

  /** `getWordUntilPosition`: the word characters that end at the cursor, possibly none. */
  function GetWordUntilPosition(line: string, column: int): (r: Word)
    requires 1 <= column <= |line| + 1
    ensures 1 <= r.startColumn <= column == r.endColumn
    ensures r.word == line[r.startColumn - 1..column - 1]
    ensures r.startColumn == 1 || !IsWordChar(line[r.startColumn - 2])
  {
    var s := WordStart(line, column - 1);
    Word(line[s..column - 1], s + 1, column)
  }

  /** `s.charAt(k)`: nothing when `k` is out of range. */
  function CharAt(s: string, k: int): Option<char> {
    if 0 <= k < |s| then Some(s[k]) else None
  }

  /** Where the dotted chain ending at offset `i` starts: the leftmost offset from which only
      word characters and dots lead up to `i`. */
  function DottedStart(line: string, i: nat): (s: nat)
    requires i <= |line|
    ensures s <= i
    ensures s == 0 || !(IsWordChar(line[s - 1]) || line[s - 1] == '.')
  {
    if i > 0 && (IsWordChar(line[i - 1]) || line[i - 1] == '.') then DottedStart(line, i - 1) else i
  }

  lemma {:induction false} DottedStartRun(line: string, i: nat)
    requires i <= |line|
    ensures forall k :: DottedStart(line, i) <= k < i ==> IsWordChar(line[k]) || line[k] == '.'
  {
    if i > 0 && (IsWordChar(line[i - 1]) || line[i - 1] == '.') {
      DottedStartRun(line, i - 1);
    }
  }

  /** Stepping back over word characters does not move the chain's start. */
  lemma {:induction false} DottedStartOverWord(line: string, i: nat)
    requires i <= |line|
    ensures DottedStart(line, WordStart(line, i)) == DottedStart(line, i)
  {
    if i > 0 && IsWordChar(line[i - 1]) {
      DottedStartOverWord(line, i - 1);
    }
  }

  /** The identifier chain the hover looks up: from the chain's start to the end of the word. */
  function Chain(line: string, w: Word): string
    requires 1 <= w.startColumn <= w.endColumn <= |line| + 1
  {
    line[DottedStart(line, w.startColumn - 1)..w.endColumn - 1]
  }

  /** Without a `.` or a word character before the word, its chain is the word itself. */
  lemma PlainChain(line: string, w: Word)
    requires 1 <= w.startColumn <= w.endColumn <= |line| + 1
    requires w.word == line[w.startColumn - 1..w.endColumn - 1]
    requires w.startColumn == 1 || !IsWordChar(line[w.startColumn - 2])
    requires CharAt(line, w.startColumn - 2) != Some('.')
    ensures DottedStart(line, w.startColumn - 1) == w.startColumn - 1
    ensures Chain(line, w) == w.word
  {
    var s := w.startColumn - 1;
    assert DottedStart(line, s) == s by {
      if s > 0 {
        var c := line[s - 1];
        assert CharAt(line, s - 1) == Some(c);
        assert !(IsWordChar(c) || c == '.');
      }
    }
    assert Chain(line, w) == line[s..w.endColumn - 1];
  }

  /** The chain of `w` ends with the word, holds only word characters and dots, and cannot be
      extended to the left. */
  predicate ChainShaped(line: string, w: Word)
    requires 1 <= w.startColumn <= w.endColumn <= |line| + 1
  {
    var chain := Chain(line, w);
    var start := DottedStart(line, w.startColumn - 1);
    && |chain| >= |w.word|
    && chain[|chain| - |w.word|..] == w.word
    && (forall k :: 0 <= k < |chain| ==> IsWordChar(chain[k]) || chain[k] == '.')
    && (start == 0 || !(IsWordChar(line[start - 1]) || line[start - 1] == '.'))
  }

  /** The chain of the word under the cursor is shaped so. */
  lemma ChainShape(line: string, column: int, w: Word)
    requires 1 <= column <= |line| + 1
    requires GetWordAtPosition(line, column) == Some(w)
    ensures ChainShaped(line, w)
  {
    var s := WordStart(line, column - 1);
    var e := WordEnd(line, column - 1);
    assert w == Word(line[s..e], s + 1, e + 1);
    WordAround(line, column - 1);
    ChainOfRun(line, w);
  }

  /** The chain of a run of word characters is shaped so. */
  lemma ChainOfRun(line: string, w: Word)
    requires 1 <= w.startColumn <= w.endColumn <= |line| + 1
    requires w.word == line[w.startColumn - 1..w.endColumn - 1]
    requires forall k :: w.startColumn - 1 <= k < w.endColumn - 1 ==> IsWordChar(line[k])
    ensures ChainShaped(line, w)
  {
    var s, e := w.startColumn - 1, w.endColumn - 1;
    ChainChars(line, s, e);
    assert Chain(line, w) == line[DottedStart(line, s)..e];
  }

  /** A run of word characters, extended leftwards over word characters and dots, holds only
      word characters and dots. */
  lemma ChainChars(line: string, s: nat, e: nat)
    requires s <= e <= |line|
    requires forall k :: s <= k < e ==> IsWordChar(line[k])
    ensures var chain := line[DottedStart(line, s)..e];
      && |chain| >= e - s
      && chain[|chain| - (e - s)..] == line[s..e]
      && forall k :: 0 <= k < |chain| ==> IsWordChar(chain[k]) || chain[k] == '.'
  {
    var start := DottedStart(line, s);
    DottedStartRun(line, s);
    var chain := line[start..e];
    SliceTail(line, start, s, e);
    forall k | 0 <= k < |chain|
      ensures IsWordChar(chain[k]) || chain[k] == '.'
    {
      assert chain[k] == line[start + k];
    }
  }

  /** Cutting a slice at one character. */
  lemma SliceAt(line: string, s: nat, m: nat, end: nat)
    requires s <= m < end <= |line|
    ensures line[s..end] == line[s..m] + [line[m]] + line[m + 1..end]
  {
    assert line[s..end] == line[s..m] + line[m..end];
    assert line[m..end] == [line[m]] + line[m + 1..end];
  }

  /** The tail of a slice is a slice. */
  lemma SliceTail(line: string, a: nat, b: nat, c: nat)
    requires a <= b <= c <= |line|
    ensures line[a..c][b - a..] == line[b..c]
  {
  }

  /** One step of the walk: when a `.` precedes the chain, the word before it (possibly empty),
      the `.` and the chain form the chain that starts at that word, and the dotted start does
      not move. */
  lemma WalkStep(line: string, start: nat, end: nat, current: string)
    requires 0 < start <= end <= |line| && line[start - 1] == '.'
    requires current == line[start..end]
    ensures var w := GetWordUntilPosition(line, start);
      && w.word + "." + current == line[w.startColumn - 1..end]
      && DottedStart(line, w.startColumn - 1) == DottedStart(line, start)
  {
    var s := WordStart(line, start - 1);
    assert GetWordUntilPosition(line, start) == Word(line[s..start - 1], s + 1, start);
    SliceAt(line, s, start - 1, end);
    assert DottedStart(line, start) == DottedStart(line, start - 1);
    DottedStartOverWord(line, start - 1);
  }

  /** `lineUntil` agrees with `line` on all its characters. */
  predicate PrefixOf(lineUntil: string, line: string) {
    |lineUntil| <= |line| && forall k :: 0 <= k < |lineUntil| ==> lineUntil[k] == line[k]
  }

  /** The walk stops where neither a `.` nor a word character precedes: there the chain starts. */
  lemma WalkStop(line: string, lineUntil: string, start: nat)
    requires start <= |lineUntil| && PrefixOf(lineUntil, line)
    requires CharAt(lineUntil, start - 1) != Some('.')
    requires start == 0 || !IsWordChar(line[start - 1])
    ensures DottedStart(line, start) == start
  {
    if start > 0 {
      assert line[start - 1] == lineUntil[start - 1];
    }
  }

  /** The body of the walk: the word before the `.` that precedes the chain, then the `.` and the
      chain so far. */
  method StepBack(line: string, lineUntil: string, first: Word, current: string, ghost end: nat)
    returns (first': Word, current': string)
    requires PrefixOf(lineUntil, line) && 1 < first.startColumn <= |lineUntil| + 1
    requires first.startColumn - 1 <= end <= |line|
    requires lineUntil[first.startColumn - 2] == '.'
    requires current == line[first.startColumn - 1..end]
    ensures 1 <= first'.startColumn < first.startColumn
    ensures current' == line[first'.startColumn - 1..end]
    ensures first'.startColumn == 1 || !IsWordChar(line[first'.startColumn - 2])
    ensures DottedStart(line, first'.startColumn - 1) == DottedStart(line, first.startColumn - 1)
  {
    assert line[first.startColumn - 2] == '.';
    WalkStep(line, first.startColumn - 1, end, current);
    first' := GetWordUntilPosition(line, first.startColumn - 1);
    current' := first'.word + "." + current;
  }

  /** The `while (true)` loop of `provideHover`: while a `.` precedes the first word of the chain,
      the word before that `.` (possibly empty) is prepended. */
  method WalkChain(line: string, lineUntil: string, word: Word) returns (first: Word, current: string)
    requires 1 <= word.startColumn <= word.endColumn <= |line| + 1
    requires word.word == line[word.startColumn - 1..word.endColumn - 1]
    requires word.startColumn == 1 || !IsWordChar(line[word.startColumn - 2])
    requires PrefixOf(lineUntil, line) && word.startColumn - 1 <= |lineUntil|
    ensures first.startColumn - 1 == DottedStart(line, word.startColumn - 1)
    ensures current == Chain(line, word)
  {
    ghost var target := DottedStart(line, word.startColumn - 1);
    ghost var end := word.endColumn - 1;
    first, current := word, word.word;
    while CharAt(lineUntil, first.startColumn - 2) == Some('.')
      invariant 1 <= first.startColumn <= |lineUntil| + 1 && first.startColumn - 1 <= end
      invariant current == line[first.startColumn - 1..end]
      invariant first.startColumn == 1 || !IsWordChar(line[first.startColumn - 2])
      invariant DottedStart(line, first.startColumn - 1) == target
      decreases first.startColumn
    {
      first, current := StepBack(line, lineUntil, first, current, end);
    }
    WalkStop(line, lineUntil, first.startColumn - 1);
  }
}
