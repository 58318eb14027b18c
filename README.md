# gmod-monaco core, modelled in Dafny

gmod-monaco is a Monaco-based Lua editor and REPL embedded in Garry's Mod. The part modelled here covers everything the editor knows about the game's Lua API:

- **Symbol store** (`AutocompletionData`). It holds documented functions, class methods, hooks, enumeration constants, module names and values reported at run time. It also holds two lookup maps (full name to item, bare method name to items) and two lazily built completion lists.
- **Wiki ingestion** (`Gwiki`). It normalises the loosely shaped scraped wiki JSON in place and routes each element into the store by realm and kind. Enumeration groups are flattened.
- **Item renderers.** These produce qualified names, completion snippets, usage lines, completion details and hover documentation for functions, enumeration constants and run-time values.
- **Hover resolver.** It rebuilds the `a.b.c` chain that ends at the word under the cursor. After a `:` it looks the bare method name up among the methods; otherwise it looks up the chain. The resolution (`HoverAt`) picks the items and the range; the hover shows their documentation.
- **REPL interface.** It loads the game's `|`-separated lists of globals and functions into the store. It also holds the input line's history, its position in that history, and the numbering of submitted lines.
- **Theme naming.** It derives the registered name of each listed theme.

Modules follow the source files:

| Module | Source | What it holds |
|---|---|---|
| `Wrappers` | — | JavaScript `undefined` and truthiness |
| `Text` | — | `split`, `join`, `trim`, first-occurrence `replace`, decimal rendering |
| `Funcs` | `GluaFunc.ts` | |
| `Enums` | `GluaEnum.ts` | |
| `InterfaceValues` | `GmodInterfaceValue.ts` | |
| `Items` | `GluaItem.ts` | the union of the three item kinds |
| `Autocompletion` | `autocompletionData.ts` | |
| `Gwiki` | `Gwiki.ts` | |
| `HoverWord` | `hoverProvider.ts` | the editor's word under and before the cursor, and the dotted chain |
| `Hover` | `hoverProvider.ts` | |
| `Repl` | `replInterface.ts` | |
| `Themes` | `themeLoader.ts` | |

The store is a class whose fields the methods update, as in the source. `Symbols()` reads its tables as one value, `Tables`. Pure functions on `Tables` specify the methods:

- `GlobalList` and `MethodList`;
- `AddValue`;
- `RouteFunction`, `IngestAll` and `AddEnumJson`;
- `LoadRuntime`.

Each method's postcondition ties the new state to the function of the old state, and the lemmas state what those functions guarantee.

The environment enters only as parameters:

- which realm is being loaded;
- the page's navigation-history length, read by the Up-arrow key;
- whether the page's global `name` is empty, read by the `GmodInterfaceValue` constructor;
- whether the suggestion widget is open.

## Model

| member | source | states |
|---|---|---|
| Wrappers.OrElse | src/glua/GluaEnum.ts:17-18 | `o \|\| fallback` on an optional string: the string when it is present and non-empty, the fallback otherwise |
| Funcs.FullName | src/glua/GluaFunc.ts:51-58 | `getFullName()`: `parent.name` for a library function outside `Global`, `parent:name` for class and panel methods, the bare name otherwise; what the name guarantees is stated by `FullNameSplitsBack` |
| Funcs.FullNameSplitsBack | src/glua/GluaFunc.ts:51-58 | A class or panel method is `parent:name` and splits back into parent and name at its last `:`. A library function outside `Global` is `parent.name` and splits back at its last `.`. Every other kind, hooks included, is the bare name |
| Funcs.Detail | src/glua/GluaFunc.ts:39-47 | `getDetail()`: the note tags, the realm tag and the description's first line; its layout is stated by `DetailParts` |
| Funcs.DetailParts | src/glua/GluaFunc.ts:39-50 | The detail starts with `[deprecated] ` when a deprecation note exists. An internal note puts `[internal] ` right after it, or at the start when there is no deprecation note. The realm tag `[realm] ` always follows the note tags, at offset 13 and/or 11 for the notes present, and the detail ends with exactly the description's first line, which holds no newline. For a multi-line description, first line + newline + suggest documentation gives the description back; for a one-line description the suggest documentation is empty |
| Funcs.UsageSnippet | src/glua/GluaFunc.ts:60-84 | `generateUsageSnippet()`: the head name, then the parenthesised placeholders; its shape is stated by `UsageSnippetShape` and `UsageSnippetNoArgs` |
| Funcs.UsageSnippetShape | src/glua/GluaFunc.ts:70-84 | With arguments, the snippet is the head name followed by placeholders joined by `, ` in parentheses. The i-th placeholder is `${i+1:type_name}`, with `=default` only for a default that is neither empty nor `nil` |
| Funcs.PlaceholderAt | src/glua/GluaFunc.ts:71-77 | Placeholder i of the `forEach` carries the number i + k, counting from k |
| Funcs.UsageSnippetNoArgs | src/glua/GluaFunc.ts:60-69 | Without arguments, the snippet is `name()` for class, panel and hook kinds and `fullName()` for every other kind |
| Funcs.ArgUsages | src/glua/GluaFunc.ts:90-97 | One `(type)name[=default]` item per argument, in argument order |
| Funcs.UsageText | src/glua/GluaFunc.ts:86-99 | `generateUsageText()`: the full name and the parenthesised argument items; its shape is stated by `UsageTextShape` |
| Funcs.UsageTextShape | src/glua/GluaFunc.ts:86-99 | With or without arguments, the usage text is the full name followed by the argument items joined by `, ` in parentheses |
| Funcs.UsageTextExample | src/glua/GluaFunc.ts:86-99 | A `Global` library function `Foo` with argument `x: number` reads `Foo((number)x)` |
| Funcs.ExampleDocsCount | src/glua/GluaFunc.ts:147-158 | The examples contribute two entries each, plus one for each example whose output is non-empty |
| Funcs.Documentation | src/glua/GluaFunc.ts:100-159 | `generateDocumentation()`: the usage, realm, note, description, argument, return and example sections in source order; its length and fixed entries are stated by `DocumentationCount` |
| Funcs.DocumentationCount | src/glua/GluaFunc.ts:100-159 | The documentation has 5 fixed entries. It gains 1 with arguments and 1 with return values. With examples it gains a heading, 2 entries per example and 1 per example with output. The first entry is the bold usage text and the fifth is the description |
| Funcs.ArgDocReplacesFirstNewline | src/glua/GluaFunc.ts:131-134 | In an argument's text only the first newline gains the `##### ` prefix; the rest is unchanged |
| Funcs.RetDocReplacesFirstNewline | src/glua/GluaFunc.ts:141-143 | The same rule for a return value's text |
| Enums.Documentation | src/glua/GluaEnum.ts:14-20 | Exactly three entries: ``Value: `v` ``, then the enum's own text, then the group's description. A missing or empty text reads `No description`, so no entry is ever empty |
| Enums.Detail | src/glua/GluaEnum.ts:21-23 | The detail is the enum's text when it has one (nothing otherwise), a blank line, and then the documentation's group entry: the group description or `No description` |
| InterfaceValues.New | src/glua/GmodInterfaceValue.ts:10-19 | Every field is copied. When the guard on the page's global `name` does not fire, the name is the record's own. When it fires, a method's name is the text after its last `:`; that text contains no `:` and is a suffix of the full name, which it completes as `before:name`. Any other value's name is its full name |
| InterfaceValues.Usage | src/glua/GmodInterfaceValue.ts:20-25 | For the `Function` and `Method` kinds the usage is `name()` for methods and `fullname()` otherwise. For any other kind, or none, it is the full name |
| InterfaceValues.Documentation | src/glua/GmodInterfaceValue.ts:29-34 | One entry holding the description when it is truthy, none otherwise |
| Autocompletion.GlobalList | src/autocompletionData.ts:80-172 | The global list's length is the sum of its seven categories: functions, enums, snippets, built-in constants, keywords, modules and reported values |
| Autocompletion.MethodList | src/autocompletionData.ts:174-236 | What the methods cache gains: the class methods, the hooks and the reported methods, in that order; its contents are stated by `MethodListContents` |
| Autocompletion.GlobalListContents | src/autocompletionData.ts:80-172 | The global list's length is the sum of its seven categories. It holds the item of every function, enum, built-in constant, keyword, module and reported value, methods included |
| Autocompletion.MethodListContents | src/autocompletionData.ts:174-236 | The method list holds the item of every class method and hook and of every reported value that is a method. Each of its items is one of these |
| Autocompletion.HookListContents | src/autocompletionData.ts:264-286 | The hook completions are exactly those of the `GM` hooks, at most one per hook. Each carries the requested range and a quoted label, and its inserted text differs from the bare name exactly when quotes are requested |
| Autocompletion.Append | src/autocompletionData.ts:301-305 | `get(key).push(item)` when the key exists and `set(key, [item])` otherwise: the earlier entries stay and the key is added; other keys are untouched |
| Autocompletion.AddValue | src/autocompletionData.ts:287-310 | The reported values gain the value exactly when the store accepts it, an accepted value is registered under its full name with its own item, and no registered key is dropped |
| Autocompletion.AddValueEffect | src/autocompletionData.ts:287-310 | A value with an empty full name, or one named like a built-in constant or keyword, changes nothing. Otherwise the value is appended to the reported values and overwrites its full name's entry; a method is also appended under its bare name, keeping the earlier entries; nothing else changes |
| Autocompletion.AddValueTwice | src/autocompletionData.ts:298-299 | Adding the same value twice leaves the full-name map as after one add but lists the value twice |
| Autocompletion.PushEach | src/autocompletionData.ts:82-101 | A `forEach` that pushes one item per element onto the cache appends the mapped list |
| Autocompletion.PushEachIf | src/autocompletionData.ts:217-236 | A `forEach` that returns early on some elements appends the items of the others only, in order |
| Autocompletion.AutocompletionData.constructor | src/autocompletionData.ts:63-79 | Every table, map and cache starts empty |
| Autocompletion.AutocompletionData.GenerateGlobalCache | src/autocompletionData.ts:80-173 | The global cache is rebuilt from scratch as the global list of the current tables |
| Autocompletion.AutocompletionData.GenerateMethodsCache | src/autocompletionData.ts:174-237 | The method list is appended to whatever the cache already holds |
| Autocompletion.AutocompletionData.UpdateCacheRange | src/autocompletionData.ts:238-245 | Every item gets the new range and is otherwise unchanged |
| Autocompletion.AutocompletionData.GlobalAutocomplete | src/autocompletionData.ts:246-254 | The list is rebuilt only when the cache is empty. Every item gets the requested range, and the cache is the returned list |
| Autocompletion.AutocompletionData.GlobalAutocompleteTwice | src/autocompletionData.ts:246-254 | Two global completions without a store change in between list the same labels; the built-in constants keep the cache non-empty |
| Autocompletion.AutocompletionData.MethodAutocomplete | src/autocompletionData.ts:255-263 | The method list is built only when the cache is empty. Every item gets the requested range |
| Autocompletion.AutocompletionData.HookAutocomplete | src/autocompletionData.ts:264-286 | One hook item for each `GM` hook, in hook order |
| Autocompletion.AutocompletionData.AddNewInterfaceValue | src/autocompletionData.ts:287-310 | The tables change as `AddValue` says. A refused value keeps both caches. An accepted method empties only the methods cache and any other accepted value empties only the global cache |
| Autocompletion.AutocompletionData.ClearMethodsAutocompletionCache | src/autocompletionData.ts:311-313 | Empties the methods cache only |
| Autocompletion.AutocompletionData.ClearGlobalAutocompletionCache | src/autocompletionData.ts:314-316 | Empties the global cache only |
| Autocompletion.AutocompletionData.ClearAutocompleteCache | src/autocompletionData.ts:317-320 | Empties both caches |
| Autocompletion.ResetAutocomplete | src/autocompletionData.ts:323-326 | A fresh, empty store |
| Gwiki.NormalizeList | src/glua/Gwiki.ts:6-23 | The corrected normalisation (see Findings): a wrapped array stays that array, a single wrapped object becomes a one-element list, a missing field becomes empty, and a bare array left by an earlier pass stays itself |
| Gwiki.NormalizeListAsWritten | src/glua/Gwiki.ts:6-23 | As written, and as the ingestion pipeline uses it: a bare array has no `arg` field and becomes empty; every other shape gives the same result as `NormalizeList` |
| Gwiki.NormalizeListStable | src/glua/Gwiki.ts:6-23 | With the correction, normalising an already normalised list gives it back |
| Gwiki.NormalizeListAsWrittenLosesArgs | src/glua/Gwiki.ts:6-14 | As written, a single argument survives the first normalisation and is lost by the second |
| Gwiki.NormalizeDescription | src/glua/Gwiki.ts:24-31 | A string becomes the text. A missing or empty text becomes `""` and a missing description an empty one. The notes are kept |
| Gwiki.ChosenExamples | src/glua/Gwiki.ts:32-38 | The element's own examples, or the parent's when the element has none, wrapped into a list; none at all gives `[]` |
| Gwiki.SpliceScanKept | src/glua/Gwiki.ts:41-45 | The `forEach` with `splice`, resumed after a prefix, keeps the prefix and then `Kept` of the rest |
| Gwiki.SpliceScanFromStart | src/glua/Gwiki.ts:41-45 | The scan from the start keeps exactly `Kept` |
| Gwiki.KeptMembers | src/glua/Gwiki.ts:41-45 | Only input examples survive, every example with string code survives, and the list never grows |
| Gwiki.KeptSkipsAfterRemoval | src/glua/Gwiki.ts:41-45 | Of two examples without string code, the second survives unexamined |
| Gwiki.FilterExamples | src/glua/Gwiki.ts:41-45 | The `splice` loop leaves exactly `Kept` of its input |
| Gwiki.ReloadEmptiesLists | src/glua/Gwiki.ts:5-49 | As written, normalising a rewritten element again keeps its description but leaves it with no arguments and no return values, whatever the first pass found |
| Gwiki.ReloadLosesArgument | src/glua/Gwiki.ts:6-14 | As written, an element with one wrapped argument documents it on the first load and loses it on the second |
| Gwiki.CorrectedNormalizedStable | src/glua/Gwiki.ts:5-49 | With the corrected list normalisation, normalising a rewritten element again gives the same arguments, return values and description; on a first load, where no list is a bare array yet, the corrected and the as-written normalisation agree |
| Gwiki.PreprocessGWikiElem | src/glua/Gwiki.ts:5-49 | The element is left rewritten with its lists normalised as written, a description object and the filtered examples, and the function record is built from it |
| Gwiki.AddLeafGrows | src/glua/Gwiki.ts:69-76 | A leaf whose key is registered leaves the store as it was (the first occurrence wins). A new key becomes `GluaEnum(key, value, text, description)` with the enclosing object's description, appended to the enums and registered under its key with that enum's item. Either way the key ends up registered and the enum index stays intact |
| Gwiki.AddElemsGrows | src/glua/Gwiki.ts:51-78 | Flattening registers every leaf key. Existing entries keep their values (the first occurrence wins), enums are only appended, and no other table changes |
| Gwiki.AddListsGrows | src/glua/Gwiki.ts:52-57 | The same for an `enum` array of item lists |
| Gwiki.AddEnumJson | src/glua/Gwiki.ts:51-78 | `addEnum`: an `enum` array flattens each item list, a group flattens its items with its description, a bare array its elements without one; what it guarantees is stated by `AddEnumJsonGrows` and `AddEnumJsonAppendsLeaves` |
| Gwiki.AddEnumJsonGrows | src/glua/Gwiki.ts:51-78 | The same for each shape `addEnum` accepts |
| Gwiki.AddElemsRegistered | src/glua/Gwiki.ts:70-73 | A group whose leaf keys are all registered changes nothing |
| Gwiki.AddElemsAppendsLeaves | src/glua/Gwiki.ts:64-77 | Every enum flattening appends is a leaf of the elements carrying the description of its directly enclosing object (the given one at the top, a subgroup's own below it), and it is registered under its key with its own item |
| Gwiki.AddListsAppendsLeaves | src/glua/Gwiki.ts:52-57 | The same for an `enum` array: each item list's leaves carry no description |
| Gwiki.AddEnumJsonAppendsLeaves | src/glua/Gwiki.ts:51-78 | The same for each shape `addEnum` accepts |
| Gwiki.AddEnumElems | src/glua/Gwiki.ts:64-77 | The recursive `forEach` writes exactly what `AddElems` describes into the store |
| Gwiki.AddEnum | src/glua/Gwiki.ts:51-78 | `addEnum` writes exactly what `AddEnumJson` describes into the store |
| Gwiki.IngestAll | src/glua/Gwiki.ts:94-122 | The tables after ingesting the elements in order, each through `IngestElement` with the as-written normalisation; what it guarantees is stated by `IngestKeepsInvariants`, `IngestAppendsFunctions` and `ReingestDoublesFunctions` |
| Gwiki.RewrittenAll | src/glua/Gwiki.ts:94-122 | The array as ingestion leaves it: each element rewritten on its own, as written, so its function lists become arrays |
| Gwiki.AddFunction | src/glua/Gwiki.ts:101-118 | The function is registered and filed as `RouteFunction` says |
| Gwiki.IngestOne | src/glua/Gwiki.ts:95-121 | One element is ingested and rewritten as `IngestElement` says, with the as-written normalisation |
| Gwiki.LoadAutocompletionData | src/glua/Gwiki.ts:94-123 | The store becomes `IngestAll` of the array, the array is rewritten element by element as written, and both caches end empty |
| Gwiki.OtherRealmSkipped | src/glua/Gwiki.ts:95-97 | An element without the requested realm changes nothing and is left as it was |
| Gwiki.RouteFunction | src/glua/Gwiki.ts:98-118 | The full name ends up registered with the function's own item, the parent ends up among the modules, and no registered key is dropped |
| Gwiki.RouteFunctionEffect | src/glua/Gwiki.ts:98-118 | The full name is registered, and the parent is appended to the modules only when absent. Class and panel methods go to the class methods and under their bare name, keeping earlier entries. Hooks go to the hooks and are also registered under their bare name. Every other kind goes to the functions |
| Gwiki.RouteFunctionKeepsInvariants | src/glua/Gwiki.ts:102-105 | Routing lists no module twice, keeps the enum index and drops no registered key |
| Gwiki.IngestKeepsInvariants | src/glua/Gwiki.ts:94-122 | Ingesting any array lists no module twice and keeps the enum index |
| Gwiki.IngestAppendsFunctions | src/glua/Gwiki.ts:116-118 | Ingestion keeps the existing functions and appends one per plain-function element, without de-duplication |
| Gwiki.ReingestDoublesFunctions | src/glua/Gwiki.ts:94-122 | Ingesting the rewritten array again keeps the function records of the first pass and appends one more per plain function, so each is listed twice; as written, every function the second pass appends has no arguments and no return values |
| Gwiki.RewrittenListsBare | src/glua/Gwiki.ts:5-23 | Ingestion leaves the argument and return lists of every function of the realm as bare arrays |
| Gwiki.IngestBareAddsNoLists | src/glua/Gwiki.ts:6-23 | As written, ingesting elements whose lists are already bare arrays appends only functions without arguments or return values |
| Gwiki.RewrittenCount | src/glua/Gwiki.ts:94-122 | The rewritten array has as many plain-function elements for the realm as the original |
| HoverWord.GetWordAtPosition | src/hoverProvider.ts:14 | A word found lies within the line and touches the cursor. Its text is the slice of the line between its columns, and no word character precedes it |
| HoverWord.WordAtPositionShape | src/hoverProvider.ts:14-17 | No word exactly when neither character next to the cursor is a word character. Otherwise the word is non-empty, made only of word characters, and no word character follows it, so it is the maximal run containing the cursor |
| HoverWord.GetWordUntilPosition | src/hoverProvider.ts:28-31 | The word characters that end at the column, possibly none, with the column where they start, and no word character before them |
| HoverWord.DottedStartOverWord | src/hoverProvider.ts:28-33 | Stepping back over a word does not move where the dotted chain starts |
| HoverWord.PlainChain | src/hoverProvider.ts:18-20 | With neither a `.` nor a word character before the word, the chain starts at the word and is the word itself |
| HoverWord.ChainShape | src/hoverProvider.ts:18-34 | The chain ends with the hovered word, holds only word characters and dots, and cannot be extended to the left |
| HoverWord.WalkStep | src/hoverProvider.ts:28-33 | When a `.` precedes the chain, the word before it, the `.` and the chain together are the slice of the line from that word on, and the chain's start does not move |
| HoverWord.WalkStop | src/hoverProvider.ts:22-27 | Where the loop breaks, with no `.` and no word character before the first word, the chain starts at that word |
| HoverWord.StepBack | src/hoverProvider.ts:28-33 | One pass of the loop moves the first word strictly left. The identifier stays the slice of the line from the first word to the hovered word's end, and the chain's start does not move |
| HoverWord.WalkChain | src/hoverProvider.ts:18-34 | The `while (true)` loop ends. Its first word starts where the dotted chain starts, and the identifier it builds is the chain, which runs from there to the word's end |
| Hover.HoverAt | src/hoverProvider.ts:11-17 | The hover resolves to nothing exactly when there is no word under the cursor |
| Hover.HoverFor | src/hoverProvider.ts:18-76 | The range lies on the cursor's line, starts at or before the word and ends where the word ends; more than one item only after a `:` with a method entry for the word |
| Hover.Render | src/hoverProvider.ts:66-69 | The hover keeps the target's range. No item gives empty contents, and one item gives exactly that item's documentation |
| Hover.HoverForPlain | src/hoverProvider.ts:55-76 | Without a `.` before the word, and outside the `:` method case, the bare word is looked up over the word's own range |
| Hover.ColonFallsThrough | src/hoverProvider.ts:35-65 | After `:`, a word with no method entry is looked up on its own: its value item if registered, otherwise nothing, over the word's range |
| Hover.LineUntilCoversWord | src/hoverProvider.ts:11-13 | `substring(0, column)` agrees with the line and reaches past the character before the word, so the `charAt` tests on it see the line's characters |
| Hover.ConcatDocs | src/hoverProvider.ts:39-44 | The documentation of every method under the name, concatenated in stored order |
| Hover.LookupChain | src/hoverProvider.ts:55-76 | The item registered under the identifier, or none on a miss, over the given range |
| Hover.ResolveChain | src/hoverProvider.ts:20-34 | After `.`, the walk and the lookup give the item registered under the whole chain (or none), over the range from the chain's start to the word's end |
| Hover.ResolveWord | src/hoverProvider.ts:18-76 | Once a word is found, the branch on the character before it resolves to `HoverFor`: after `:` with a method entry, every method of that name over the word's range; otherwise the chain's item, or none, over the range from the chain's start |
| Hover.HoverAtCursor | src/hoverProvider.ts:11-76 | The resolution is `HoverAt`: nothing without a word under the cursor, otherwise `HoverFor` of that word |
| Hover.ProvideHover | src/hoverProvider.ts:6-77 | Nothing without a word under the cursor. Otherwise the hover shows the documentation of the items `HoverAt` resolves to, concatenated, over its range: a single looked-up value shows its own documentation and a miss shows empty contents |
| Repl.EntryValue | src/replInterface.ts:191-217 | The value built for an entry has the entry as its full name. A value is never a method and has no kind. A function entry with `.` is a plain `Function`; one with `:` but no `.` is a `Method`; any other is a plain `Function` |
| Repl.LoadEntriesCovers | src/replInterface.ts:182-189 | After loading, every entry is registered or refused by the store, and no registered key is dropped |
| Repl.LoadEntriesIdle | src/replInterface.ts:182-189 | Entries that are all registered or refused change neither the store nor the caches |
| Repl.LoadEntriesTables | src/replInterface.ts:174-181 | Loading entries keeps the tables collected so far and collects the part before the last `.` of every dotted entry, and nothing else |
| Repl.LoadEntriesModules | src/replInterface.ts:172-217 | Loading entries leaves the modules alone; only the closing `forEach` adds to them |
| Repl.AddModulesContents | src/replInterface.ts:219-223 | Every collected table becomes a module. No module is listed twice if none was before, and tables already listed change nothing |
| Repl.AddModulesOnly | src/replInterface.ts:219-223 | The closing `forEach` adds nothing to the modules but the collected tables |
| Repl.TwoPassModules | src/replInterface.ts:171-223 | From no collected tables, the two passes and the closing `forEach` leave the modules as the earlier ones plus the table part of every dotted entry, and nothing else |
| Repl.LoadRuntimeModules | src/replInterface.ts:164-224 | After `LoadAutocomplete`, the modules are the earlier ones plus the part before the last `.` of every dotted value or function entry, and nothing else |
| Repl.LoadTwiceAddsNothing | src/replInterface.ts:164-224 | A second identical load leaves the reported values empty and both lookup maps as the first load left them |
| Repl.LoadRuntime | src/replInterface.ts:164-224 | What `LoadAutocomplete` leaves: values emptied, both caches built, value entries then function entries loaded, collected tables added to the modules; what it guarantees is stated by `LoadTwiceAddsNothing`, `LoadEntriesCovers`, `LoadRuntimeModules` and `AddModulesContents` |
| Repl.LoadAutocomplete | src/replInterface.ts:164-224 | The store and both caches become what `LoadRuntime` describes: values emptied, both caches built, values then functions loaded, and tables added to the modules |
| Repl.ResetAndCache | src/replInterface.ts:165-168 | The reported values are emptied, the rest of the store is kept, the global cache becomes `GlobalList` of the emptied store, and the method cache is extended by its `MethodList` |
| Repl.LoadList | src/replInterface.ts:172-190 | One `forEach` over the entries does what `LoadEntries` describes |
| Repl.AddModulesTo | src/replInterface.ts:219-223 | The closing `forEach` appends each table that is absent from the modules |
| Repl.LoadAutocompleteState | src/replInterface.ts:155-158 | The wiki data is ingested for the realm with the as-written normalisation, then both caches end empty |
| Repl.ResetAutocompletion | src/replInterface.ts:159-161 | The store is replaced by a fresh, empty one |
| Repl.KeyDown | src/replInterface.ts:70-119 | The key handler as written, Up bounded by the navigation history's length; what it guarantees is stated by `KeyDownKeepsValid`, `EnterEffect`, `UpThenDown` and `UpReadsPastHistory` |
| Repl.KeyDownKeepsValid | src/replInterface.ts:70-119 | The history position never goes negative, and every numbered line carries a number already handed out |
| Repl.EnterEffect | src/replInterface.ts:75-88 | Enter on a white-space line changes nothing. Otherwise the code is submitted and prepended to the history, and the position resets to 0. The output gains the line, whose number (line count − 1) maps to the counter, and the counter advances |
| Repl.UpThenDown | src/replInterface.ts:90-112 | Within the history, Up then Down returns to the same position and shows the same entry again, or an empty line at position 0 |
| Repl.UpReadsPastHistory | src/replInterface.ts:91-94 | As written, Up with an empty REPL history and a navigation history of length 1 reads past the REPL history and throws |
| Repl.KeyDownCorrectedInRange | src/replInterface.ts:90-97 | With the bound taken from the REPL's own history, the position stays within the history and no key throws |
| Repl.ReplInterface.constructor | src/replInterface.ts:44-47 | No numbered lines, empty history, position 0 and counter 0 |
| Repl.ReplInterface.AddText | src/replInterface.ts:143-146 | The text and a newline are appended to the output |
| Repl.ReplInterface.Clear | src/replInterface.ts:147-150 | Empties the line numbering and the output and keeps the counter |
| Repl.ReplInterface.Reset | src/replInterface.ts:151-154 | Also restarts the counter at 0 |
| Repl.ReplInterface.OnKeyDown | src/replInterface.ts:70-119 | The state and outcome are as `KeyDown` says, and the invariant is kept |
| Themes.ThemeName | src/themeLoader.ts:11-14 | A theme name is never longer than its file name; its character-wise rule is stated by `ThemeNameByChar` |
| Themes.Dashed | src/themeLoader.ts:12 | Each white-space or `_` character becomes exactly one `-`, so the length is unchanged |
| Themes.ThemeNameByChar | src/themeLoader.ts:11-14 | The three replacements act on each character on its own: white space and `_` become `-`, parentheses disappear, capital letters are lower-cased |
| Themes.ByCharClean | src/themeLoader.ts:12-14 | A theme name holds no white space, `_`, parenthesis or capital letter |
| Themes.ThemeNameIdempotent | src/themeLoader.ts:11-14 | Naming a theme name again gives it back |
| Themes.ThemeNameLength | src/themeLoader.ts:12-13 | The name's length is the file name's length minus its parentheses |
| Themes.DerivedNamesContents | src/themeLoader.ts:8-15 | The names are exactly the theme names of the list's strings; other values are skipped |
| Themes.LoadThemes | src/themeLoader.ts:8-15 | The loop over the list yields exactly `DerivedNames` |

## Left out

- **Network fetch.** The `fetch` of the wiki data in `LoadAutocompletionData` and its asynchronous re-entry are not modelled, nor is the absence of a guard against overlapping fetches. Ingestion is modelled as a function of an array already present.
- **Completion provider.** `completionProvider.ts` (an asynchronous wrapper whose provider returns an empty list) and the completion-context classifier are not modelled. The classifier's source is not part of this model.
- **Monaco payload fields.** Completion kinds, insert-text rules, tags, sort and filter texts and `getCompletionKind` are left out. Completion items carry only a label, detail, documentation, inserted text and range.
- **Reflective field copy.** The copy in `GluaItem`'s constructor is replaced by explicit datatypes. Fields the model does not use (`realms`, `file`, `objType`) are left out.
- **Singleton and aliasing.** Methods reach the module's singleton store instead of `this`, and `ResetAutocomplete` rebinds the export. The model uses one explicit instance, and a reset returns a fresh one. The aliasing of the built-in arrays into every store is not modelled.
- **Returned caches.** The completion lists hand out the cache arrays themselves. The model returns values, so a caller's later mutation of a returned list is not captured.
- **Shared example arrays.** An element without examples shares its parent's example array, and the `splice` then also shortens the parent's array. A function record also shares its element's example array, because the item constructor copies the reference. The next load runs the `splice` again on that same array, which shortens the examples of the function stored by the earlier load. For example, two examples without string code leave one after the first load and none after the second. The model filters a copy each time, so stored functions keep the examples of their own load.
- Gwiki.ReingestDoublesFunctions: the first-pass function records are stated as kept unchanged, examples included. In the source, a reload also shortens the example arrays of those records through the shared reference.
- **Input shapes the source cannot handle.** Wiki JSON on which the source throws (an `items.item` that is not an array, an element without `realms`) is not modelled. Argument and return texts are assumed to be strings.
- **Editor, DOM and host glue.** Not modelled: `SetEditors`, the widget position hacks, `setTimeout`, `revealLine`, `console` output, the line-number renderer, `OnCode`, `OpenURL`, `index.ts`, `repl.ts`, `gmodInterface.ts`, `editorSession.ts`, the formatter, the quick-fix provider and the bundler configuration. A submission appears only as the `submitted` code of the key outcome.
- **Theme loading.** The dynamic imports of the theme files, `defineTheme` and the `catch` around the loop are left out. Only the names and the skipping of non-string entries are modelled.
- **Character classes.** `toLowerCase` is modelled on the letters A to Z only. `\s` and `trim` use ECMAScript's white-space set.
- **Hover fallback.** The `"No documentation"` fallback cannot be reached, because every item returns an array, and arrays are truthy. The model has no such branch.
- HoverWord.GetWordAtPosition: the Lua word pattern is not part of this model. Words are taken as maximal runs of `[A-Za-z0-9_]` on one line, and the column is assumed to lie within the line or just past its end, as an editor position always does.
- Repl.LineCount: only `\n` is counted as a line break; `\r` and `\r\n` in text sent by the host are not.
- Repl.ReplInterface.OnKeyDown: after an out-of-range history read throws, the input line is modelled as unchanged. What `setValue(undefined)` would leave there is not modelled.
- Repl.KeyDown: Up reads the page's navigation-history length as a parameter, because it is browser state.
- **Usage text.** The documentation of the usage text describes `Foo(number x)`, but the code builds `Foo((number)x)`; the model follows the code (`Funcs.UsageTextExample`).

## Findings

| source | as written | input that shows it | evidently intended | confidence | as-written member | corrected member |
|---|---|---|---|---|---|---|
| src/glua/Gwiki.ts:6-23 | Normalisation rewrites the shared wiki array in place. A second load (each `LoadAutocompleteState` call reloads) finds `args`/`rets` already bare arrays with no `arg`/`ret` field, and empties them | an element whose `args` is `{arg: a}`, loaded twice | an already normalised list is kept | medium, not executed | Gwiki.ReloadLosesArgument | Gwiki.CorrectedNormalizedStable |
| src/replInterface.ts:91 | Up is bounded by `history.length`, the page's navigation history, not by the REPL's own history | empty REPL history, navigation history of length 1, press Up: `this.history[0]` is `undefined` and `histStr.length` throws | bound by `this.history.length` | high, not executed | Repl.UpReadsPastHistory | Repl.KeyDownCorrectedInRange |

The ingestion pipeline (`Gwiki.Normalized`, `Gwiki.Rewritten`, `Gwiki.IngestAll`, `Gwiki.LoadAutocompletionData` and `Repl.LoadAutocompleteState`) follows the normalisation as written, so `Gwiki.ReingestDoublesFunctions` shows a reload appending functions without arguments. `Gwiki.CorrectedNormalized` and `Gwiki.NormalizeList` give the intended behaviour. On a first load, the two normalisations agree.
