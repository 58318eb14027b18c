/**
  The JavaScript string operations the editor's code relies on, over `seq<char>`:
  `split` on one character, `Array.join`, `trim`, `replace` with a string pattern
  (first occurrence only) and the decimal rendering of an index in a template string.
 */
module Text {

  /** The characters `String.prototype.trim` and the regular-expression class `\s` treat as
      white space: ECMAScript's WhiteSpace and LineTerminator code points. */
  predicate IsJsWhitespace(c: char) {
    c == ' ' || c == '\t' || c == '\n' || c == '\r' || c == '\U{000B}' || c == '\U{000C}'
    || c == '\U{00A0}' || c == '\U{1680}' || ('\U{2000}' <= c <= '\U{200A}')
    || c == '\U{2028}' || c == '\U{2029}' || c == '\U{202F}' || c == '\U{205F}'
    || c == '\U{3000}' || c == '\U{FEFF}'
  }

  /** `parts.join(sep)`. */
  function Join(parts: seq<string>, sep: string): string
  {
    if |parts| == 0 then ""
    else if |parts| == 1 then parts[0]
    else parts[0] + sep + Join(parts[1..], sep)
  }

  /** `s.split(d)` for a one-character separator: never empty, and no part holds the separator. */
  function Split(s: string, d: char): (parts: seq<string>)
    ensures |parts| >= 1
    ensures forall i :: 0 <= i < |parts| ==> d !in parts[i]
    decreases |s|
  {
    if |s| == 0 then [""]
    else
      var rest := Split(s[1..], d);
      if s[0] == d then [""] + rest
      else [[s[0]] + rest[0]] + rest[1..]
  }

  /** Joining the parts of a split with the separator gives back the original text. */
  lemma {:induction false} JoinSplit(s: string, d: char)
    ensures Join(Split(s, d), [d]) == s
    decreases |s|
  {
    if |s| > 0 {
      var rest := Split(s[1..], d);
      JoinSplit(s[1..], d);
      if s[0] == d {
        assert Split(s, d) == [""] + rest;
        assert Join([""] + rest, [d]) == "" + [d] + Join(rest, [d]);
      } else {
        var parts := [[s[0]] + rest[0]] + rest[1..];
        assert Split(s, d) == parts;
        if |rest| == 1 {
          assert Join(parts, [d]) == [s[0]] + rest[0];
        } else {
          assert parts[1..] == rest[1..];
          assert Join(rest, [d]) == rest[0] + [d] + Join(rest[1..], [d]);
          assert Join(parts, [d]) == [s[0]] + rest[0] + [d] + Join(rest[1..], [d]);
        }
      }
    }
  }

  /** A text without the separator splits into itself alone. */
  lemma {:induction false} SplitWithout(s: string, d: char)
    requires d !in s
    ensures Split(s, d) == [s]
    decreases |s|
  {
    if |s| > 0 {
      SplitWithout(s[1..], d);
      assert [s[0]] + s[1..] == s;
    }
  }

  /** A text holding the separator splits into at least two parts. */
  lemma {:induction false} SplitWith(s: string, d: char)
    requires d in s
    ensures |Split(s, d)| >= 2
    decreases |s|
  {
    if s[0] != d {
      assert d in s[1..];
      SplitWith(s[1..], d);
    }
  }

  lemma JoinSnoc(parts: seq<string>, x: string, sep: string)
    requires |parts| >= 1
    ensures Join(parts + [x], sep) == Join(parts, sep) + sep + x
    decreases |parts|
  {
    if |parts| > 1 {
      assert (parts + [x])[1..] == parts[1..] + [x];
      JoinSnoc(parts[1..], x, sep);
    }
  }

  /** `s.split(d).pop()`: the text after the last separator (all of `s` when there is none). */
  function LastSegment(s: string, d: char): string
  {
    var parts := Split(s, d);
    parts[|parts| - 1]
  }

  /** `s.split(d)` with the last part popped, joined back with `d`: the text before the last separator. */
  function BeforeLast(s: string, d: char): string
  {
    var parts := Split(s, d);
    Join(parts[..|parts| - 1], [d])
  }

  /** A text holding the separator is its part before the last separator, the separator and
      the part after it, and that last part holds no separator. */
  lemma SplitAtLast(s: string, d: char)
    requires d in s
    ensures BeforeLast(s, d) + [d] + LastSegment(s, d) == s
    ensures d !in LastSegment(s, d)
  {
    var parts := Split(s, d);
    SplitWith(s, d);
    JoinSnoc(parts[..|parts| - 1], parts[|parts| - 1], [d]);
    assert parts[..|parts| - 1] + [parts[|parts| - 1]] == parts;
    JoinSplit(s, d);
  }

  /** Without the separator the last segment is the whole text. */
  lemma LastSegmentWithout(s: string, d: char)
    requires d !in s
    ensures LastSegment(s, d) == s
  {
    SplitWithout(s, d);
  }

  /** `text.split("\n").shift()`: the first line. */
  function FirstLine(text: string): string
  {
    Split(text, '\n')[0]
  }

  /** `text.split("\n").slice(1).join("\n")`: every line after the first. */
  function OtherLines(text: string): string
  {
    Join(Split(text, '\n')[1..], "\n")
  }

  /** The first line, a newline and the other lines give back a text that holds a newline;
      a text without one is its own first line and has no other lines. */
  lemma FirstLineAndRest(text: string)
    ensures '\n' in text ==> FirstLine(text) + "\n" + OtherLines(text) == text
    ensures '\n' !in text ==> FirstLine(text) == text && OtherLines(text) == ""
    ensures '\n' !in FirstLine(text)
  {
    var parts := Split(text, '\n');
    if '\n' in text {
      SplitWith(text, '\n');
      JoinSplit(text, '\n');
      assert Join(parts, "\n") == parts[0] + "\n" + Join(parts[1..], "\n");
    } else {
      SplitWithout(text, '\n');
    }
  }

  /** Index of the first occurrence of `c` (|s| when absent). */
  function IndexOf(s: string, c: char): (i: nat)
    ensures i <= |s|
    ensures c !in s[..i]
    ensures i < |s| <==> c in s
    ensures i < |s| ==> s[i] == c
  {
    if |s| == 0 then 0
    else if s[0] == c then 0
    else
      var j := IndexOf(s[1..], c);
      assert s[1..][..j] == s[1..j + 1];
      assert s[..j + 1] == [s[0]] + s[1..j + 1];
      1 + j
  }

  /** `s.replace(pat, rep)` for a one-character string pattern: only the first occurrence is replaced. */
  function ReplaceFirst(s: string, c: char, rep: string): string
  {
    if |s| == 0 then ""
    else if s[0] == c then rep + s[1..]
    else [s[0]] + ReplaceFirst(s[1..], c, rep)
  }

  /** Replacing leaves the text unchanged when the pattern is absent, and otherwise splices the
      replacement in at the first occurrence and keeps everything after it as it was. */
  lemma {:induction false} ReplaceFirstAt(s: string, c: char, rep: string)
    ensures c !in s ==> ReplaceFirst(s, c, rep) == s
    ensures c in s ==> ReplaceFirst(s, c, rep) == s[..IndexOf(s, c)] + rep + s[IndexOf(s, c) + 1..]
    decreases |s|
  {
    if |s| > 0 && s[0] != c {
      ReplaceFirstAt(s[1..], c, rep);
      if c in s {
        assert c in s[1..];
        var j := IndexOf(s[1..], c);
        assert IndexOf(s, c) == j + 1;
        assert s[..j + 1] == [s[0]] + s[1..][..j];
        assert s[j + 2..] == s[1..][j + 1..];
      } else {
        assert s == [s[0]] + s[1..];
      }
    }
  }

  /** Every character is white space. */
  predicate IsBlank(s: string) {
    forall i :: 0 <= i < |s| ==> IsJsWhitespace(s[i])
  }

  function TrimStart(s: string): string
  {
    if |s| > 0 && IsJsWhitespace(s[0]) then TrimStart(s[1..]) else s
  }

  function TrimEnd(s: string): string
  {
    if |s| > 0 && IsJsWhitespace(s[|s| - 1]) then TrimEnd(s[..|s| - 1]) else s
  }

  /** `s.trim()`. */
  function Trim(s: string): string
  {
    TrimEnd(TrimStart(s))
  }

  lemma {:induction false} TrimStartBlank(s: string)
    ensures TrimStart(s) == "" <==> IsBlank(s)
    ensures |TrimStart(s)| > 0 ==> !IsJsWhitespace(TrimStart(s)[0])
    decreases |s|
  {
    if |s| > 0 && IsJsWhitespace(s[0]) {
      TrimStartBlank(s[1..]);
      assert IsBlank(s) <==> IsBlank(s[1..]);
    }
  }

  lemma {:induction false} TrimEndKeepsFirst(s: string)
    requires |s| > 0 && !IsJsWhitespace(s[0])
    ensures |TrimEnd(s)| > 0 && TrimEnd(s)[0] == s[0]
    decreases |s|
  {
    if IsJsWhitespace(s[|s| - 1]) {
      TrimEndKeepsFirst(s[..|s| - 1]);
    }
  }

  /** A text trims to the empty string exactly when it is all white space. */
  lemma TrimEmptyIffBlank(s: string)
    ensures Trim(s) == "" <==> IsBlank(s)
  {
    TrimStartBlank(s);
    if TrimStart(s) != "" {
      TrimEndKeepsFirst(TrimStart(s));
    }
  }

  /** The decimal digit for 0..9. */
  function Digit(d: nat): char
    requires d < 10
  {
    "0123456789"[d]
  }

  /** The decimal rendering of a natural number, as `${n}` gives it. */
  function NatToString(n: nat): (r: string)
    ensures |r| >= 1
    ensures forall i :: 0 <= i < |r| ==> '0' <= r[i] <= '9'
    ensures n > 0 ==> r[0] != '0'
  {
    if n < 10 then [Digit(n)] else NatToString(n / 10) + [Digit(n % 10)]
  }

  /** The value of a string of decimal digits. */
  function ParseDecimal(s: string): nat
    requires forall i :: 0 <= i < |s| ==> '0' <= s[i] <= '9'
  {
    if |s| == 0 then 0
    else 10 * ParseDecimal(s[..|s| - 1]) + ((s[|s| - 1] as int) - ('0' as int))
  }

  /** Reading back the decimal rendering gives the number. */
  lemma {:induction false} NatToStringRoundTrip(n: nat)
    ensures ParseDecimal(NatToString(n)) == n
  {
    if n >= 10 {
      NatToStringRoundTrip(n / 10);
      var s := NatToString(n);
      var q, d := n / 10, n % 10;
      assert s[..|s| - 1] == NatToString(q) && s[|s| - 1] == Digit(d) by {
        assert s == NatToString(q) + [Digit(d)];
      }
      DigitValue(d);
      assert n == 10 * q + d;
    }
  }

  lemma DigitValue(d: nat)
    requires d < 10
    ensures (Digit(d) as int) - ('0' as int) == d
  {
  }
}
