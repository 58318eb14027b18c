/**
  The theme loader's naming: each string of the theme list names a theme file, and the theme
  is registered under a name made from it (white space and `_` become `-`, parentheses are
  dropped, letters are lower-cased); other values of the list are skipped.
 */
module Themes {
  import opened Text

  /** `/(\s|_)/g` replaced by `-`. */
  function Dashed(s: string): (r: string)
    ensures |r| == |s|
    decreases s
  {
    if |s| == 0 then ""
    else [if IsJsWhitespace(s[0]) || s[0] == '_' then '-' else s[0]] + Dashed(s[1..])
  }

  predicate IsParen(c: char) {
    c == '(' || c == ')'
  }

  /** `/(\(|\))/g` replaced by nothing. */
  function WithoutParens(s: string): (r: string)
    ensures |r| <= |s|
    decreases s
  {
    if |s| == 0 then ""
    else if IsParen(s[0]) then WithoutParens(s[1..])
    else [s[0]] + WithoutParens(s[1..])
  }

  function LowerChar(c: char): char {
    if 'A' <= c <= 'Z' then (c as int + 32) as char else c
  }

  /** `toLowerCase()`, on the letters A to Z. */
  function LowerAscii(s: string): (r: string)
    ensures |r| == |s|
    decreases s
  {
    if |s| == 0 then "" else [LowerChar(s[0])] + LowerAscii(s[1..])
  }

  /** The name a theme is registered under. */
  function ThemeName(file: string): (r: string)
    ensures |r| <= |file|
  {
    LowerAscii(WithoutParens(Dashed(file)))
  }

  /** What one character of the file name becomes in the theme name. */
  function NameChar(c: char): string {
    if IsJsWhitespace(c) || c == '_' then "-"
    else if IsParen(c) then ""
    else [LowerChar(c)]
  }

  /** The theme name, character by character. */
  function ByChar(s: string): string
    decreases s
  {
    if |s| == 0 then "" else NameChar(s[0]) + ByChar(s[1..])
  }

  /** The three replacements together act on each character on its own. */
  lemma {:induction false} ThemeNameByChar(s: string)
    ensures ThemeName(s) == ByChar(s)
    decreases s
  {
    if |s| > 0 {
      ThemeNameByChar(s[1..]);
      var d := if IsJsWhitespace(s[0]) || s[0] == '_' then '-' else s[0];
      assert Dashed(s)[0] == d && Dashed(s)[1..] == Dashed(s[1..]);
      var rest := WithoutParens(Dashed(s[1..]));
      if !IsParen(d) {
        assert WithoutParens(Dashed(s)) == [d] + rest;
        assert ([d] + rest)[1..] == rest;
      }
    }
  }

  /** A character that no step changes. */
  predicate IsClean(c: char) {
    !IsJsWhitespace(c) && c != '_' && !IsParen(c) && !('A' <= c <= 'Z')
  }

  /** A theme name holds no white space, `_`, parenthesis or capital letter. */
  lemma {:induction false} ByCharClean(s: string)
    ensures forall i :: 0 <= i < |ByChar(s)| ==> IsClean(ByChar(s)[i])
    decreases s
  {
    if |s| > 0 {
      ByCharClean(s[1..]);
      var r := ByChar(s);
      forall i | 0 <= i < |r|
        ensures IsClean(r[i])
      {
        if i >= |NameChar(s[0])| {
          assert r[i] == ByChar(s[1..])[i - |NameChar(s[0])|];
        }
      }
    }
  }

  lemma {:induction false} ByCharOfClean(s: string)
    requires forall i :: 0 <= i < |s| ==> IsClean(s[i])
    ensures ByChar(s) == s
    decreases s
  {
    if |s| > 0 {
      ByCharOfClean(s[1..]);
      assert NameChar(s[0]) == [s[0]];
    }
  }

  /** Naming a theme name again gives it back. */
  lemma ThemeNameIdempotent(s: string)
    ensures ThemeName(ThemeName(s)) == ThemeName(s)
    ensures forall i :: 0 <= i < |ThemeName(s)| ==> IsClean(ThemeName(s)[i])
  {
    ThemeNameByChar(s);
    ByCharClean(s);
    ThemeNameByChar(ThemeName(s));
    ByCharOfClean(ThemeName(s));
  }

  function ParenCount(s: string): nat
    decreases s
  {
    if |s| == 0 then 0 else (if IsParen(s[0]) then 1 else 0) + ParenCount(s[1..])
  }

  /** Only the parentheses are dropped: every other character gives exactly one. */
  lemma {:induction false} ThemeNameLength(s: string)
    ensures |ThemeName(s)| == |s| - ParenCount(s)
    decreases s
  {
    ThemeNameByChar(s);
    ByCharLength(s);
  }

  lemma {:induction false} ByCharLength(s: string)
    ensures |ByChar(s)| == |s| - ParenCount(s)
    decreases s
  {
    if |s| > 0 {
      ByCharLength(s[1..]);
    }
  }

  /** A value of the theme list: only strings name theme files. */
  datatype ThemeEntry = ThemeString(file: string) | OtherValue

  /** The names the listed themes are registered under, in list order. */
  function DerivedNames(entries: seq<ThemeEntry>): seq<string>
    decreases entries
  {
    if |entries| == 0 then []
    else if entries[0].OtherValue? then DerivedNames(entries[1..])
    else [ThemeName(entries[0].file)] + DerivedNames(entries[1..])
  }

  /** Each string of the list gives one name and every other value is skipped. */
  lemma {:induction false} DerivedNamesContents(entries: seq<ThemeEntry>)
    ensures forall n :: n in DerivedNames(entries) <==>
      exists e :: e in entries && e.ThemeString? && n == ThemeName(e.file)
    ensures (forall e :: e in entries ==> e.OtherValue?) ==> DerivedNames(entries) == []
    decreases entries
  {
    if |entries| > 0 {
      DerivedNamesContents(entries[1..]);
      assert entries == [entries[0]] + entries[1..];
    }
  }

  /** The loop of `loadThemes` over the theme list, without the file imports. */
  method LoadThemes(entries: seq<ThemeEntry>) returns (names: seq<string>)
    ensures names == DerivedNames(entries)
  {
    names := [];
    for i := 0 to |entries|
      invariant names + DerivedNames(entries[i..]) == DerivedNames(entries)
    {
      assert entries[i..][1..] == entries[i + 1..];
      if entries[i].OtherValue? {
        continue;
      }
      assert names + ([ThemeName(entries[i].file)] + DerivedNames(entries[i + 1..]))
        == (names + [ThemeName(entries[i].file)]) + DerivedNames(entries[i + 1..]);
      names := names + [ThemeName(entries[i].file)];
    }
    assert entries[|entries|..] == [];
  }
}
