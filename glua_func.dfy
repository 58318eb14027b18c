/**
  A documented function of the game's Lua API (a library function, a class or panel method,
  or a hook), as the wiki documents it once normalised, and the strings the editor renders
  for it: its qualified name, the snippet inserted on completion, the usage line, the
  completion detail and the hover documentation.
 */
module Funcs {
  import opened Wrappers
  import opened Text

  /** `description`: the text, and the optional internal-use and deprecation notes. */
  datatype Description = Description(text: string, internal: Option<string>, deprecated: Option<string>)

  datatype Arg = Arg(text: string, name: string, typ: string, default: Option<string>)

  datatype Ret = Ret(text: string, name: string, typ: string)

  /** An example's `code` is either a string or some other JSON value, rendered in a template
      string as `shown`; the wiki data holds both. */
  datatype Code = Source(text: string) | NotText(shown: string)

  datatype Example = Example(description: string, code: Code, output: Option<string>)

  /** `GluaFunc`: `kind` is the wiki's `type` field. */
  datatype GluaFunc = GluaFunc(
    name: string,
    parent: string,
    kind: string,
    description: Description,
    realm: string,
    args: seq<Arg>,
    rets: seq<Ret>,
    examples: seq<Example>)

  function Rendered(c: Code): string {
    match c
    case Source(t) => t
    case NotText(s) => s
  }

  predicate IsMethodKind(kind: string) {
    kind == "classfunc" || kind == "panelfunc"
  }

  /** Kinds whose usage snippet starts with the bare name. */
  predicate IsBareUsageKind(kind: string) {
    kind == "classfunc" || kind == "hook" || kind == "panelfunc"
  }

  /** `hasArgs()`. */
  predicate HasArgs(f: GluaFunc) {
    |f.args| != 0
  }

  /** `getFullName()`: `parent.name` for a library function outside `Global`, `parent:name` for
      class and panel methods, the bare name otherwise. */
  function FullName(f: GluaFunc): string
  {
    if f.kind == "libraryfunc" && f.parent != "Global" then f.parent + "." + f.name
    else if IsMethodKind(f.kind) then f.parent + ":" + f.name
    else f.name
  }

  /** The qualified name of a method ends in `:` and its bare name, so the text after the last
      `:` is the bare name again (the rule runtime methods derive their bare name by); a library
      function outside `Global` is split back at its last `.`; every other kind is its bare name. */
  lemma FullNameSplitsBack(f: GluaFunc)
    ensures IsMethodKind(f.kind) && ':' !in f.name ==>
      LastSegment(FullName(f), ':') == f.name && BeforeLast(FullName(f), ':') == f.parent
    ensures f.kind == "libraryfunc" && f.parent != "Global" && '.' !in f.name ==>
      LastSegment(FullName(f), '.') == f.name && BeforeLast(FullName(f), '.') == f.parent
    ensures !IsMethodKind(f.kind) && !(f.kind == "libraryfunc" && f.parent != "Global") ==>
      FullName(f) == f.name
  {
    if IsMethodKind(f.kind) && ':' !in f.name {
      SplitBackAt(f.parent, f.name, ':');
    }
    if f.kind == "libraryfunc" && f.parent != "Global" && '.' !in f.name {
      SplitBackAt(f.parent, f.name, '.');
    }
  }

  lemma SplitBackAt(parent: string, name: string, d: char)
    requires d !in name
    ensures LastSegment(parent + [d] + name, d) == name
    ensures BeforeLast(parent + [d] + name, d) == parent
  {
    var s := parent + [d] + name;
    assert s[|parent|] == d;
    SplitAtLast(s, d);
    var before, last := BeforeLast(s, d), LastSegment(s, d);
    SuffixAfterLastSeparator(parent, name, before, last, d);
  }

  /** Two ways of cutting one text at a separator, each with a separator-free tail, coincide. */
  lemma SuffixAfterLastSeparator(a: string, b: string, c: string, e: string, d: char)
    requires a + [d] + b == c + [d] + e
    requires d !in b && d !in e
    ensures a == c && b == e
  {
    var s := a + [d] + b;
    assert s == c + [d] + e;
    assert forall k :: |c| < k < |s| ==> s[k] == e[k - |c| - 1];
    assert forall k :: |a| < k < |s| ==> s[k] == b[k - |a| - 1];
    assert s[|a|] == d && s[|c|] == d;
    assert |a| == |c|;
    assert a == s[..|a|] && c == s[..|c|];
    assert b == s[|a| + 1..] && e == s[|c| + 1..];
  }

  /** `getDetail()`: the deprecation tag, the internal tag, the realm tag, then the first line of
      the description. */
  function Detail(f: GluaFunc): string
  {
    (if f.description.deprecated.Some? then "[deprecated] " else "")
    + (if f.description.internal.Some? then "[internal] " else "")
    + "[" + f.realm + "] " + FirstLine(f.description.text)
  }

  /** `getSuggestDocumentation()`: the description after its first line. */
  function SuggestDocumentation(f: GluaFunc): string
  {
    OtherLines(f.description.text)
  }

  /** How many characters the deprecation and internal tags take at the head of the detail. */
  function NoteTagsLength(f: GluaFunc): nat {
    (if f.description.deprecated.Some? then 13 else 0) + (if f.description.internal.Some? then 11 else 0)
  }

  /** The detail opens with `[deprecated] ` when the function is deprecated, then `[internal] `
      when it is internal, then always the realm tag, and ends with exactly the description's
      first line; that line, a newline and the suggest documentation give back a multi-line
      description. */
  lemma DetailParts(f: GluaFunc)
    ensures var p := NoteTagsLength(f);
      var line := FirstLine(f.description.text);
      && |Detail(f)| == p + |f.realm| + 3 + |line|
      && (f.description.deprecated.Some? ==> Detail(f)[..13] == "[deprecated] ")
      && (f.description.internal.Some? ==> Detail(f)[p - 11..p] == "[internal] ")
      && Detail(f)[p..p + |f.realm| + 3] == "[" + f.realm + "] "
      && Detail(f)[p + |f.realm| + 3..] == line
      && '\n' !in line
    ensures '\n' in f.description.text ==>
      FirstLine(f.description.text) + "\n" + SuggestDocumentation(f) == f.description.text
    ensures '\n' !in f.description.text ==> SuggestDocumentation(f) == ""
  {
    FirstLineAndRest(f.description.text);
    var line := FirstLine(f.description.text);
    assert Detail(f) == NoteTags(f) + ("[" + f.realm + "] ") + line;
    TaggedLayout(f, Detail(f), line);
  }

  /** The layout of a text made of the note tags, the realm tag and a line. */
  lemma TaggedLayout(f: GluaFunc, d: string, line: string)
    requires d == NoteTags(f) + ("[" + f.realm + "] ") + line
    ensures var p := NoteTagsLength(f);
      && |d| == p + |f.realm| + 3 + |line|
      && (f.description.deprecated.Some? ==> d[..13] == "[deprecated] ")
      && (f.description.internal.Some? ==> d[p - 11..p] == "[internal] ")
      && d[p..p + |f.realm| + 3] == "[" + f.realm + "] "
      && d[p + |f.realm| + 3..] == line
  {
    var head := NoteTags(f);
    var tag := "[" + f.realm + "] ";
    NoteTagsShape(f);
    ThreeSlices(head, tag, line);
    if f.description.deprecated.Some? {
      assert d[..13] == head[..13] by { PrefixOfPrefix(d, |head|, 13); }
    }
    if f.description.internal.Some? {
      assert d[|head| - 11..|head|] == head[|head| - 11..] by { InnerSlice(head, tag + line); }
    }
  }

  /** The deprecation and internal tags at the head of the detail. */
  function NoteTags(f: GluaFunc): string {
    (if f.description.deprecated.Some? then "[deprecated] " else "")
    + (if f.description.internal.Some? then "[internal] " else "")
  }

  lemma NoteTagsShape(f: GluaFunc)
    ensures |NoteTags(f)| == NoteTagsLength(f)
    ensures f.description.deprecated.Some? ==> NoteTags(f)[..13] == "[deprecated] "
    ensures f.description.internal.Some? ==> NoteTags(f)[|NoteTags(f)| - 11..] == "[internal] "
  {
  }

  lemma ThreeSlices(a: string, b: string, c: string)
    ensures (a + b + c)[..|a|] == a
    ensures (a + b + c)[|a|..|a| + |b|] == b
    ensures (a + b + c)[|a| + |b|..] == c
  {
    assert a + b + c == a + (b + c);
  }

  lemma PrefixOfPrefix(s: string, n: nat, m: nat)
    requires m <= n <= |s|
    ensures s[..m] == s[..n][..m]
  {
  }

  lemma InnerSlice(a: string, b: string)
    requires |a| >= 11
    ensures (a + b)[|a| - 11..|a|] == a[|a| - 11..]
  {
  }

  /** `elem.default && elem.default !== "" && elem.default !== "nil"`. */
  predicate ShowsDefault(a: Arg) {
    a.default.Some? && a.default.value != "" && a.default.value != "nil"
  }

  function DefaultSuffix(a: Arg): string {
    if ShowsDefault(a) then "=" + a.default.value else ""
  }

  /** The snippet placeholder of argument number `k` (counted from 1). */
  function Placeholder(k: nat, a: Arg): string {
    "${" + NatToString(k) + ":" + a.typ + "_" + a.name + DefaultSuffix(a) + "}"
  }

  /** The placeholders built by the `forEach` over the arguments, numbering from `k`. */
  function Placeholders(args: seq<Arg>, k: nat): (r: seq<string>)
    ensures |r| == |args|
  {
    if |args| == 0 then [] else [Placeholder(k, args[0])] + Placeholders(args[1..], k + 1)
  }

  /** The i-th placeholder carries the number i + k. */
  lemma {:induction false} PlaceholderAt(args: seq<Arg>, k: nat, i: nat)
    requires i < |args|
    ensures Placeholders(args, k)[i] == Placeholder(k + i, args[i])
  {
    if i > 0 {
      PlaceholderAt(args[1..], k + 1, i - 1);
    }
  }

  /** The name a usage snippet starts with. */
  function SnippetHead(f: GluaFunc): string {
    if IsBareUsageKind(f.kind) then f.name else FullName(f)
  }

  /** `generateUsageSnippet()`. */
  function UsageSnippet(f: GluaFunc): string
  {
    if !HasArgs(f) then SnippetHead(f) + "()"
    else SnippetHead(f) + "(" + Join(Placeholders(f.args, 1), ", ") + ")"
  }

  /** The usage snippet is the head, then the parenthesised placeholders: the k-th one, counted
      from 1, is `${k:type_name}` with `=default` only for a default that is neither empty nor
      "nil"; without arguments it is `name()` for methods and hooks and the full name otherwise. */
  lemma UsageSnippetShape(f: GluaFunc, i: nat)
    requires i < |f.args|
    ensures UsageSnippet(f) == SnippetHead(f) + "(" + Join(Placeholders(f.args, 1), ", ") + ")"
    ensures Placeholders(f.args, 1)[i]
      == "${" + NatToString(i + 1) + ":" + f.args[i].typ + "_" + f.args[i].name
         + (if ShowsDefault(f.args[i]) then "=" + f.args[i].default.value else "") + "}"
  {
    PlaceholderAt(f.args, 1, i);
  }

  /** Without arguments the snippet is the bare name for methods, panel functions and hooks and
      the full name otherwise, followed by `()`. */
  lemma UsageSnippetNoArgs(f: GluaFunc)
    requires !HasArgs(f)
    ensures IsBareUsageKind(f.kind) ==> UsageSnippet(f) == f.name + "()"
    ensures !IsBareUsageKind(f.kind) ==> UsageSnippet(f) == FullName(f) + "()"
  {
  }

  /** A `Global` library function `Foo` with one argument `x` of type `number` and no default
      reads `Foo((number)x)`. */
  lemma UsageTextExample(description: Description, realm: string, text: string)
    ensures UsageText(GluaFunc("Foo", "Global", "libraryfunc", description, realm,
                               [Arg(text, "x", "number", None)], [], [])) == "Foo((number)x)"
  {
    var f := GluaFunc("Foo", "Global", "libraryfunc", description, realm, [Arg(text, "x", "number", None)], [], []);
    assert f.args[1..] == [];
    assert ArgUsage(f.args[0]) == "(number)x";
    assert ArgUsages(f.args) == ["(number)x"];
    assert Join(["(number)x"], ", ") == "(number)x";
  }

  /** `(type)name[=default]`, one argument of the usage text. */
  function ArgUsage(a: Arg): string {
    "(" + a.typ + ")" + a.name + DefaultSuffix(a)
  }

  function ArgUsages(args: seq<Arg>): (r: seq<string>)
    ensures |r| == |args|
    ensures forall i :: 0 <= i < |args| ==> r[i] == ArgUsage(args[i])
  {
    if |args| == 0 then [] else [ArgUsage(args[0])] + ArgUsages(args[1..])
  }

  /** `generateUsageText()`. */
  function UsageText(f: GluaFunc): string
  {
    if !HasArgs(f) then FullName(f) + "()"
    else FullName(f) + "(" + Join(ArgUsages(f.args), ", ") + ")"
  }

  /** With or without arguments, the usage text is the full name and the parenthesised list of
      `(type)name[=default]` items joined by ", ". */
  lemma UsageTextShape(f: GluaFunc)
    ensures UsageText(f) == FullName(f) + "(" + Join(ArgUsages(f.args), ", ") + ")"
  {
  }

  /** `### k. (type) name[=default]` and the argument text, each `\n` after the first left as is. */
  function ArgDoc(k: nat, a: Arg): string {
    "### " + NatToString(k) + ". (" + a.typ + ") " + a.name + DefaultSuffix(a)
    + "\n##### " + ReplaceFirst(a.text, '\n', "\n##### ") + "\n"
  }

  function ArgDocs(args: seq<Arg>, k: nat): string
  {
    if |args| == 0 then "" else ArgDoc(k, args[0]) + ArgDocs(args[1..], k + 1)
  }

  function RetDoc(k: nat, r: Ret): string {
    "### " + NatToString(k) + ". " + r.typ + "\n##### " + ReplaceFirst(r.text, '\n', "\n##### ") + "\n"
  }

  function RetDocs(rets: seq<Ret>, k: nat): string
  {
    if |rets| == 0 then "" else RetDoc(k, rets[0]) + RetDocs(rets[1..], k + 1)
  }

  /** `elem.output !== "" && elem.output !== undefined`. */
  predicate HasOutput(e: Example) {
    e.output.Some? && e.output.value != ""
  }

  /** The entries pushed for examples number k, k + 1, ... */
  function ExampleDocs(examples: seq<Example>, k: nat): seq<string>
  {
    if |examples| == 0 then []
    else
      var e := examples[0];
      ["### Example " + NatToString(k) + ".\n#### " + e.description,
       "```glua\n" + Rendered(e.code) + "\n```"]
      + (if HasOutput(e) then ["##### Output\n`" + e.output.value + "`"] else [])
      + ExampleDocs(examples[1..], k + 1)
  }

  /** How many examples have an output. */
  function OutputCount(examples: seq<Example>): nat
  {
    if |examples| == 0 then 0
    else (if HasOutput(examples[0]) then 1 else 0) + OutputCount(examples[1..])
  }

  lemma {:induction false} ExampleDocsCount(examples: seq<Example>, k: nat)
    ensures |ExampleDocs(examples, k)| == 2 * |examples| + OutputCount(examples)
  {
    if |examples| > 0 {
      ExampleDocsCount(examples[1..], k + 1);
    }
  }

  /** `generateDocumentation()`: the markdown entries shown on hover. */
  function Documentation(f: GluaFunc): seq<string>
  {
    ["**" + UsageText(f) + "**",
     "#### Realm: `" + f.realm + "`",
     if f.description.deprecated.Some? then "### Deprecated\n" + f.description.deprecated.value else "",
     if f.description.internal.Some? then "### Internal\n" + f.description.internal.value else "",
     f.description.text]
    + (if HasArgs(f) then [Trim("## Arguments\n" + ArgDocs(f.args, 1))] else [])
    + (if |f.rets| != 0 then [Trim("## Returns\n" + RetDocs(f.rets, 1))] else [])
    + (if |f.examples| != 0 then ["## Examples"] + ExampleDocs(f.examples, 1) else [])
  }

  /** The documentation holds five fixed entries, one more with arguments, one more with return
      values, and with examples a heading plus two entries per example plus one per example
      that has an output. */
  lemma DocumentationCount(f: GluaFunc)
    ensures |Documentation(f)|
      == 5 + (if HasArgs(f) then 1 else 0) + (if |f.rets| != 0 then 1 else 0)
         + (if |f.examples| != 0 then 1 + 2 * |f.examples| + OutputCount(f.examples) else 0)
    ensures Documentation(f)[0] == "**" + UsageText(f) + "**"
    ensures Documentation(f)[4] == f.description.text
  {
    ExampleDocsCount(f.examples, 1);
  }

  /** In an argument's text only the first newline gains the `##### ` prefix; the rest of the
      text follows unchanged. */
  lemma ArgDocReplacesFirstNewline(k: nat, a: Arg)
    ensures '\n' !in a.text ==>
      ArgDoc(k, a) == "### " + NatToString(k) + ". (" + a.typ + ") " + a.name + DefaultSuffix(a)
                      + "\n##### " + a.text + "\n"
    ensures '\n' in a.text ==>
      var i := IndexOf(a.text, '\n');
      ArgDoc(k, a) == "### " + NatToString(k) + ". (" + a.typ + ") " + a.name + DefaultSuffix(a)
                      + "\n##### " + a.text[..i] + "\n##### " + a.text[i + 1..] + "\n"
  {
    ReplaceFirstAt(a.text, '\n', "\n##### ");
  }

  /** The same rule for a return value's text. */
  lemma RetDocReplacesFirstNewline(k: nat, r: Ret)
    ensures '\n' !in r.text ==>
      RetDoc(k, r) == "### " + NatToString(k) + ". " + r.typ + "\n##### " + r.text + "\n"
    ensures '\n' in r.text ==>
      var i := IndexOf(r.text, '\n');
      RetDoc(k, r) == "### " + NatToString(k) + ". " + r.typ
                      + "\n##### " + r.text[..i] + "\n##### " + r.text[i + 1..] + "\n"
  {
    ReplaceFirstAt(r.text, '\n', "\n##### ");
  }
}
