/**
  The symbol store behind completion and hover: the lists of documented functions, methods,
  hooks, enumeration constants, module names and values reported by the game, the two lookup
  maps (full name to item, bare method name to items), the built-in constants, keywords and
  snippets, and the two completion lists built lazily from them.
 */
module Autocompletion {
  import opened Wrappers
  import opened Funcs
  import opened Enums
  import opened InterfaceValues
  import opened Items

  /** A range of editor positions; completion lists carry one per item. */
  datatype Range = Range(startLineNumber: int, startColumn: int, endLineNumber: int, endColumn: int)

  const ZeroRange := Range(0, 0, 0, 0)

  /** A completion suggestion: what the list shows, the extra text beside it, what is inserted
      and the range it replaces. */
  datatype CompletionItem = CompletionItem(
    labelText: string,
    detail: Option<string>,
    documentation: Option<string>,
    insertText: string,
    range: Range)

  datatype Snippet = Snippet(name: string, code: string)

  const BuiltinSnippets: seq<Snippet> := [
    Snippet("local", "local ${1:x} = ${2:1}"),
    Snippet("fun", "function ${1:fname}(${2:...})\n${3:-- body}\nend"),
    Snippet("for", "for ${1:i}=${2:1},${3:10} do\n${4:print(i)}\nend"),
    Snippet("forp", "for ${1:i},${2:v} in pairs(${3:table_name}) do\n${4:-- body}\nend"),
    Snippet("fori", "for ${1:i},${2:v} in ipairs(${3:table_name}) do\n${4:-- body}\nend"),
    Snippet("hookadd",
      "local function ${1:hookname}(${3:...})\n${4:-- body}\nend\nhook.Add(\"${1:hookname}\",${2:Tag},${1:hookname})")
  ]

  const BuiltinConstants: seq<string> := ["SERVER", "CLIENT", "_G", "_VERSION", "VERSION"]

  const Keywords: seq<string> := [
    "and", "break", "do", "else", "elseif", "end", "false", "for", "function", "goto", "if",
    "in", "local", "nil", "not", "or", "repeat", "return", "then", "true", "until", "while",
    "continue"
  ]

  /** The store's tables, as one value. */
  datatype Tables = Tables(
    classmethods: seq<GluaFunc>,
    functions: seq<GluaFunc>,
    hooks: seq<GluaFunc>,
    modules: seq<string>,
    interfaceValues: seq<GmodInterfaceValue>,
    enums: seq<GluaEnum>,
    valuesLookup: map<string, GluaItem>,
    methodsLookup: map<string, seq<GluaItem>>)

  const EmptySymbols := Tables([], [], [], [], [], [], map[], map[])

  /** `xs.map(f)`. */
  function Map<A, B>(f: A -> B, xs: seq<A>): (r: seq<B>)
    ensures |r| == |xs|
    ensures forall i :: 0 <= i < |xs| ==> r[i] == f(xs[i])
  {
    if |xs| == 0 then [] else Map(f, xs[..|xs| - 1]) + [f(xs[|xs| - 1])]
  }

  /** The elements of `xs` that satisfy `p`, in order: a `forEach` that returns early on the
      others. */
  function Filter<T>(p: T -> bool, xs: seq<T>): seq<T>
  {
    if |xs| == 0 then [] else Filter(p, xs[..|xs| - 1]) + (if p(xs[|xs| - 1]) then [xs[|xs| - 1]] else [])
  }

  /** A filter keeps exactly the elements that satisfy the test, and only as many as there are. */
  lemma {:induction false} FilterMembers<T>(p: T -> bool, xs: seq<T>)
    ensures forall x :: x in Filter(p, xs) <==> x in xs && p(x)
    ensures |Filter(p, xs)| <= |xs|
  {
    if |xs| > 0 {
      FilterMembers(p, xs[..|xs| - 1]);
      assert xs == xs[..|xs| - 1] + [xs[|xs| - 1]];
    }
  }

  /** The completion items of each kind of entry. */
  function FuncCompletion(f: GluaFunc): CompletionItem {
    CompletionItem(FullName(f), Some(Funcs.Detail(f)), Some(SuggestDocumentation(f)), UsageSnippet(f), ZeroRange)
  }

  function EnumCompletion(e: GluaEnum): CompletionItem {
    CompletionItem(e.key, Some("Value: " + e.value), Some(Enums.Detail(e)), e.key, ZeroRange)
  }

  function SnippetCompletion(s: Snippet): CompletionItem {
    CompletionItem(s.name, None, None, s.code, ZeroRange)
  }

  /** A constant, keyword or module name: labelled and inserted as itself. */
  function WordCompletion(w: string): CompletionItem {
    CompletionItem(w, None, None, w, ZeroRange)
  }

  function ValueCompletion(v: GmodInterfaceValue): CompletionItem {
    CompletionItem(v.fullname, None, v.description, Usage(v), ZeroRange)
  }

  predicate IsClassFunction(v: GmodInterfaceValue) {
    v.classFunction
  }

  /** What `GenerateGlobalCache` builds. */
  function GlobalList(sym: Tables): (r: seq<CompletionItem>)
    ensures |r| == |sym.functions| + |sym.enums| + |BuiltinSnippets| + |BuiltinConstants|
      + |Keywords| + |sym.modules| + |sym.interfaceValues|
  {
    Map(FuncCompletion, sym.functions)
    + Map(EnumCompletion, sym.enums)
    + Map(SnippetCompletion, BuiltinSnippets)
    + Map(WordCompletion, BuiltinConstants)
    + Map(WordCompletion, Keywords)
    + Map(WordCompletion, sym.modules)
    + Map(ValueCompletion, sym.interfaceValues)
  }

  /** What `GenerateMethodsCache` appends. */
  function MethodList(sym: Tables): seq<CompletionItem>
  {
    Map(FuncCompletion, sym.classmethods)
    + Map(FuncCompletion, sym.hooks)
    + Map(ValueCompletion, Filter(IsClassFunction, sym.interfaceValues))
  }

  function Labels(items: seq<CompletionItem>): seq<string>
  {
    Map((item: CompletionItem) => item.labelText, items)
  }

  /** The global list holds one item per function, enum, snippet, constant, keyword, module and
      reported value, methods included; in particular every constant and keyword is offered. */
  lemma GlobalListContents(sym: Tables)
    ensures forall f :: f in sym.functions ==> FuncCompletion(f) in GlobalList(sym)
    ensures forall e :: e in sym.enums ==> EnumCompletion(e) in GlobalList(sym)
    ensures forall w :: w in BuiltinConstants || w in Keywords || w in sym.modules ==> WordCompletion(w) in GlobalList(sym)
    ensures forall v :: v in sym.interfaceValues ==> ValueCompletion(v) in GlobalList(sym)
  {
    MapMembers(FuncCompletion, sym.functions);
    MapMembers(EnumCompletion, sym.enums);
    MapMembers(WordCompletion, BuiltinConstants);
    MapMembers(WordCompletion, Keywords);
    MapMembers(WordCompletion, sym.modules);
    MapMembers(ValueCompletion, sym.interfaceValues);
  }

  lemma MapSnoc<A, B>(f: A -> B, xs: seq<A>, i: int)
    requires 0 <= i < |xs|
    ensures Map(f, xs[..i + 1]) == Map(f, xs[..i]) + [f(xs[i])]
  {
    assert xs[..i + 1][..i] == xs[..i];
  }

  lemma MapMembers<A, B>(f: A -> B, xs: seq<A>)
    ensures forall x :: x in xs ==> f(x) in Map(f, xs)
  {
    forall x | x in xs
      ensures f(x) in Map(f, xs)
    {
      var i :| 0 <= i < |xs| && xs[i] == x;
      assert Map(f, xs)[i] == f(x);
    }
  }

  /** The method list holds the class methods, then the hooks, then exactly the reported values
      that are methods. */
  lemma MethodListContents(sym: Tables)
    ensures |MethodList(sym)| >= |sym.classmethods| + |sym.hooks|
    ensures forall f :: f in sym.classmethods || f in sym.hooks ==> FuncCompletion(f) in MethodList(sym)
    ensures forall v :: v in sym.interfaceValues && v.classFunction ==> ValueCompletion(v) in MethodList(sym)
    ensures forall item :: item in MethodList(sym) ==>
      (exists f :: f in sym.classmethods + sym.hooks && item == FuncCompletion(f))
      || (exists v :: v in sym.interfaceValues && v.classFunction && item == ValueCompletion(v))
  {
    var methods := Filter(IsClassFunction, sym.interfaceValues);
    FilterMembers(IsClassFunction, sym.interfaceValues);
    MapMembers(FuncCompletion, sym.classmethods);
    MapMembers(FuncCompletion, sym.hooks);
    MapMembers(ValueCompletion, methods);
    forall item | item in MethodList(sym)
      ensures (exists f :: f in sym.classmethods + sym.hooks && item == FuncCompletion(f))
        || (exists v :: v in sym.interfaceValues && v.classFunction && item == ValueCompletion(v))
    {
      MapOrigin(FuncCompletion, sym.classmethods, item);
      MapOrigin(FuncCompletion, sym.hooks, item);
      MapOrigin(ValueCompletion, methods, item);
    }
  }

  lemma MapOrigin<A, B>(f: A -> B, xs: seq<A>, y: B)
    ensures y in Map(f, xs) ==> exists x :: x in xs && y == f(x)
  {
    if y in Map(f, xs) {
      var i :| 0 <= i < |xs| && Map(f, xs)[i] == y;
      assert xs[i] in xs;
    }
  }

  /** `AddNewInterfaceValue` refuses a value without a full name and one whose full name is a
      built-in constant or keyword. */
  predicate Accepts(v: GmodInterfaceValue) {
    v.fullname != "" && v.fullname !in BuiltinConstants && v.fullname !in Keywords
  }

  /** `get(key).push(item)` when the key is present, `set(key, [item])` otherwise. */
  function Append(m: map<string, seq<GluaItem>>, key: string, item: GluaItem): (r: map<string, seq<GluaItem>>)
    ensures r.Keys == m.Keys + {key}
    ensures r[key] == (if key in m then m[key] else []) + [item]
    ensures forall k :: k in m && k != key ==> r[k] == m[k]
  {
    if key in m then m[key := m[key] + [item]] else m[key := [item]]
  }

  /** The tables after `AddNewInterfaceValue(v)`. */
  function AddValue(sym: Tables, v: GmodInterfaceValue): (r: Tables)
    ensures r.interfaceValues == sym.interfaceValues + (if Accepts(v) then [v] else [])
    ensures Accepts(v) ==> v.fullname in r.valuesLookup && r.valuesLookup[v.fullname] == ValueItem(v)
    ensures r.valuesLookup.Keys >= sym.valuesLookup.Keys
  {
    if !Accepts(v) then sym
    else
      sym.(interfaceValues := sym.interfaceValues + [v],
           valuesLookup := sym.valuesLookup[v.fullname := ValueItem(v)],
           methodsLookup := if v.classFunction then Append(sym.methodsLookup, v.name, ValueItem(v))
                            else sym.methodsLookup)
  }

  /** A refused value changes nothing. An accepted one is appended to the reported values and
      replaces whatever the full name mapped to; a method is also appended under its bare name,
      keeping the entries already there; nothing else changes. */
  lemma AddValueEffect(sym: Tables, v: GmodInterfaceValue)
    ensures !Accepts(v) ==> AddValue(sym, v) == sym
    ensures Accepts(v) ==>
      var r := AddValue(sym, v);
      && r.interfaceValues == sym.interfaceValues + [v]
      && r.valuesLookup.Keys == sym.valuesLookup.Keys + {v.fullname}
      && r.valuesLookup[v.fullname] == ValueItem(v)
      && (forall k :: k in sym.valuesLookup && k != v.fullname ==> r.valuesLookup[k] == sym.valuesLookup[k])
      && (v.classFunction ==>
            && v.name in r.methodsLookup
            && r.methodsLookup[v.name] == (if v.name in sym.methodsLookup then sym.methodsLookup[v.name] else []) + [ValueItem(v)]
            && (forall k :: k in sym.methodsLookup && k != v.name ==> r.methodsLookup[k] == sym.methodsLookup[k]))
      && (!v.classFunction ==> r.methodsLookup == sym.methodsLookup)
      && r.(interfaceValues := sym.interfaceValues, valuesLookup := sym.valuesLookup,
            methodsLookup := sym.methodsLookup) == sym
  {
  }

  /** Adding an accepted value twice keeps the second copy in the full-name map (the same entry
      as after one add) but lists the value twice: `AddNewInterfaceValue` itself does not
      de-duplicate. */
  lemma AddValueTwice(sym: Tables, v: GmodInterfaceValue)
    requires Accepts(v)
    ensures AddValue(AddValue(sym, v), v).valuesLookup == AddValue(sym, v).valuesLookup
    ensures AddValue(AddValue(sym, v), v).interfaceValues == sym.interfaceValues + [v, v]
  {
    assert sym.interfaceValues + [v] + [v] == sym.interfaceValues + [v, v];
  }

  /** `hookAutocomplete`'s item for one hook. */
  function HookCompletion(hook: GluaFunc, range: Range, addQuotes: bool): CompletionItem {
    CompletionItem(
      "\"" + hook.name + "\"",
      Some(UsageText(hook)),
      Some(hook.description.text),
      if addQuotes then "\"" + hook.name + "\"" else hook.name,
      range)
  }

  predicate IsGamemodeHook(hook: GluaFunc) {
    hook.parent == "GM"
  }

  /** The hook completions are exactly those of the hooks whose parent is `GM`, one each and in
      hook order; each is labelled with the quoted name and inserts it quoted only on request. */
  lemma HookListContents(hooks: seq<GluaFunc>, range: Range, addQuotes: bool)
    ensures var items := Map((h: GluaFunc) => HookCompletion(h, range, addQuotes), Filter(IsGamemodeHook, hooks));
      && |items| <= |hooks|
      && (forall h :: h in hooks && h.parent == "GM" ==> HookCompletion(h, range, addQuotes) in items)
      && (forall item :: item in items ==>
            exists h :: h in hooks && h.parent == "GM" && item == HookCompletion(h, range, addQuotes))
      && (forall item :: item in items ==>
            (item.range == range && item.labelText[..1] == "\""
             && (addQuotes <==> item.insertText != item.labelText[1..|item.labelText| - 1])))
  {
    var f := (h: GluaFunc) => HookCompletion(h, range, addQuotes);
    var gm := Filter(IsGamemodeHook, hooks);
    FilterMembers(IsGamemodeHook, hooks);
    MapMembers(f, gm);
    forall item | item in Map(f, gm)
      ensures exists h :: h in hooks && h.parent == "GM" && item == HookCompletion(h, range, addQuotes)
    {
      MapOrigin(f, gm, item);
    }
  }

  lemma Concat3<T>(a: seq<T>, b: seq<T>, c: seq<T>, d: seq<T>)
    ensures a + b + c + d == a + (b + c + d)
  {
  }

  /** `xs.forEach(x => cache.push(f(x)))`. */
  method PushEach<A>(cache: seq<CompletionItem>, f: A -> CompletionItem, xs: seq<A>) returns (r: seq<CompletionItem>)
    ensures r == cache + Map(f, xs)
  {
    r := cache;
    for i := 0 to |xs|
      invariant r == cache + Map(f, xs[..i])
    {
      MapSnoc(f, xs, i);
      assert cache + Map(f, xs[..i + 1]) == cache + Map(f, xs[..i]) + [f(xs[i])];
      r := r + [f(xs[i])];
    }
    assert xs[..|xs|] == xs;
  }

  /** `xs.forEach(x => { if (p(x)) cache.push(f(x)) })`. */
  method PushEachIf<A>(cache: seq<CompletionItem>, p: A -> bool, f: A -> CompletionItem, xs: seq<A>)
    returns (r: seq<CompletionItem>)
    ensures r == cache + Map(f, Filter(p, xs))
  {
    r := cache;
    for i := 0 to |xs|
      invariant r == cache + Map(f, Filter(p, xs[..i]))
    {
      assert xs[..i + 1][..i] == xs[..i];
      if p(xs[i]) {
        MapSnoc(f, Filter(p, xs[..i + 1]), |Filter(p, xs[..i])|);
        assert Filter(p, xs[..i + 1])[..|Filter(p, xs[..i])|] == Filter(p, xs[..i]);
        r := r + [f(xs[i])];
      }
    }
    assert xs[..|xs|] == xs;
  }

  class AutocompletionData {
    const constants: seq<string> := BuiltinConstants
    const keywords: seq<string> := Keywords
    const snippets: seq<Snippet> := BuiltinSnippets
    var classmethods: seq<GluaFunc>
    var functions: seq<GluaFunc>
    var hooks: seq<GluaFunc>
    var modules: seq<string>
    var interfaceValues: seq<GmodInterfaceValue>
    var enums: seq<GluaEnum>
    var valuesLookup: map<string, GluaItem>
    var methodsLookup: map<string, seq<GluaItem>>
    var globalCache: seq<CompletionItem>
    var methodsCache: seq<CompletionItem>

    /** The tables, as one value. */
    function Symbols(): Tables
      reads this`classmethods, this`functions, this`hooks, this`modules, this`interfaceValues,
        this`enums, this`valuesLookup, this`methodsLookup
    {
      Tables(classmethods, functions, hooks, modules, interfaceValues, enums,
        valuesLookup, methodsLookup)
    }

    constructor ()
      ensures Symbols() == EmptySymbols
      ensures globalCache == [] && methodsCache == []
    {
      classmethods, functions, hooks, modules := [], [], [], [];
      interfaceValues, enums := [], [];
      valuesLookup, methodsLookup := map[], map[];
      globalCache, methodsCache := [], [];
    }

    /** Rebuilds the global completion list from scratch. */
    method GenerateGlobalCache()
      modifies this`globalCache
      ensures globalCache == GlobalList(Symbols())
    {
      var cache := PushEach([], FuncCompletion, functions);
      assert cache == Map(FuncCompletion, functions);
      cache := PushEach(cache, EnumCompletion, enums);
      cache := PushEach(cache, SnippetCompletion, snippets);
      cache := PushEach(cache, WordCompletion, constants);
      cache := PushEach(cache, WordCompletion, keywords);
      cache := PushEach(cache, WordCompletion, modules);
      cache := PushEach(cache, ValueCompletion, interfaceValues);
      globalCache := cache;
    }

    /** Appends the method completion list to whatever the cache already holds. */
    method GenerateMethodsCache()
      modifies this`methodsCache
      ensures methodsCache == old(methodsCache) + MethodList(Symbols())
    {
      var cache := PushEach(methodsCache, FuncCompletion, classmethods);
      cache := PushEach(cache, FuncCompletion, hooks);
      cache := PushEachIf(cache, IsClassFunction, ValueCompletion, interfaceValues);
      Concat3(methodsCache, Map(FuncCompletion, classmethods), Map(FuncCompletion, hooks),
        Map(ValueCompletion, Filter(IsClassFunction, interfaceValues)));
      methodsCache := cache;
    }

    /** Gives every item of a cache the requested range and changes nothing else in it. */
    method UpdateCacheRange(cache: seq<CompletionItem>, newRange: Range) returns (updated: seq<CompletionItem>)
      ensures |updated| == |cache|
      ensures forall i :: 0 <= i < |cache| ==> updated[i] == cache[i].(range := newRange)
    {
      updated := cache;
      for i := 0 to |cache|
        invariant |updated| == |cache|
        invariant forall j :: 0 <= j < i ==> updated[j] == cache[j].(range := newRange)
        invariant forall j :: i <= j < |cache| ==> updated[j] == cache[j]
      {
        updated := updated[i := updated[i].(range := newRange)];
      }
    }

    /** The global completion list, built only when the cache is empty, with every item's range
      set to the requested one. */
    method GlobalAutocomplete(range: Range) returns (suggestions: seq<CompletionItem>)
      modifies this`globalCache
      ensures var built := if old(globalCache) == [] then GlobalList(Symbols()) else old(globalCache);
        |suggestions| == |built|
        && (forall i :: 0 <= i < |built| ==> suggestions[i] == built[i].(range := range))
      ensures globalCache == suggestions
    {
      if |globalCache| == 0 {
        GenerateGlobalCache();
      }
      globalCache := UpdateCacheRange(globalCache, range);
      suggestions := globalCache;
    }

    /** The method completion list, appended to the cache only when the cache is empty, with
      every item's range set to the requested one. */
    method MethodAutocomplete(range: Range) returns (suggestions: seq<CompletionItem>)
      modifies this`methodsCache
      ensures var built := if old(methodsCache) == [] then MethodList(Symbols()) else old(methodsCache);
        |suggestions| == |built|
        && (forall i :: 0 <= i < |built| ==> suggestions[i] == built[i].(range := range))
      ensures methodsCache == suggestions
    {
      if |methodsCache| == 0 {
        GenerateMethodsCache();
      }
      methodsCache := UpdateCacheRange(methodsCache, range);
      suggestions := methodsCache;
    }

    /** Two global completions with no change to the store in between list the same labels:
      the first leaves a non-empty cache (the built-in constants are always in it), so the
      second does not rebuild it. */
    method GlobalAutocompleteTwice(first: Range, second: Range) returns (a: seq<CompletionItem>, b: seq<CompletionItem>)
      modifies this`globalCache
      ensures Labels(a) == Labels(b)
      ensures |a| == |b| && forall i :: 0 <= i < |b| ==> b[i].range == second
    {
      a := GlobalAutocomplete(first);
      assert |GlobalList(Symbols())| > 0 by {
        GlobalListContents(Symbols());
      }
      b := GlobalAutocomplete(second);
    }

    /** The quoted names of the game-mode hooks, in hook order. */
    method HookAutocomplete(range: Range, addQuotes: bool) returns (suggestions: seq<CompletionItem>)
      ensures suggestions == Map((h: GluaFunc) => HookCompletion(h, range, addQuotes), Filter(IsGamemodeHook, hooks))
    {
      suggestions := PushEachIf([], IsGamemodeHook, (h: GluaFunc) => HookCompletion(h, range, addQuotes), hooks);
    }

    /** Adds a value reported by the game. A value without a full name, or named like a built-in
      constant or keyword, changes nothing; otherwise the tables change as `AddValue` says and
      only the cache the value belongs to is emptied. */
    method AddNewInterfaceValue(val: GmodInterfaceValue)
      modifies this`interfaceValues, this`valuesLookup, this`methodsLookup, this`globalCache, this`methodsCache
      ensures Symbols() == AddValue(old(Symbols()), val)
      ensures !Accepts(val) ==> globalCache == old(globalCache) && methodsCache == old(methodsCache)
      ensures Accepts(val) && val.classFunction ==> methodsCache == [] && globalCache == old(globalCache)
      ensures Accepts(val) && !val.classFunction ==> globalCache == [] && methodsCache == old(methodsCache)
    {
      if val.fullname == "" {
        return;
      }
      if val.fullname in BuiltinConstants || val.fullname in Keywords {
        return;
      }
      interfaceValues := interfaceValues + [val];
      valuesLookup := valuesLookup[val.fullname := ValueItem(val)];
      if val.classFunction {
        if val.name in methodsLookup {
          methodsLookup := methodsLookup[val.name := methodsLookup[val.name] + [ValueItem(val)]];
        } else {
          methodsLookup := methodsLookup[val.name := [ValueItem(val)]];
        }
        ClearMethodsAutocompletionCache();
      } else {
        ClearGlobalAutocompletionCache();
      }
    }

    method ClearMethodsAutocompletionCache()
      modifies this`methodsCache
      ensures methodsCache == []
    {
      methodsCache := [];
    }

    method ClearGlobalAutocompletionCache()
      modifies this`globalCache
      ensures globalCache == []
    {
      globalCache := [];
    }

    method ClearAutocompleteCache()
      modifies this`globalCache, this`methodsCache
      ensures globalCache == [] && methodsCache == []
    {
      globalCache := [];
      methodsCache := [];
    }
  }

  /** `ResetAutocomplete`: the store is replaced by a fresh, empty one. */
  method ResetAutocomplete() returns (data: AutocompletionData)
    ensures fresh(data)
    ensures data.Symbols() == EmptySymbols && data.globalCache == [] && data.methodsCache == []
  {
    data := new AutocompletionData();
  }
}
