/**
  The in-game REPL: the host's lists of runtime globals and functions are turned into
  interface values and module names in the symbol store, and the one-line input keeps a
  history of submitted code, a position in it, and the numbering of submitted lines.
 */
module Repl {
  import opened Wrappers
  import opened Text
  import opened InterfaceValues
  import opened Autocompletion
  import Gwiki

  // ---------------------------------------------------------------------------------------
  // Loading the host's runtime symbols

  /** `ClientAutocompleteData`: `|`-separated lists of global values and of functions. */
  datatype ClientAutocompleteData = ClientAutocompleteData(values: string, funcs: string)

  /** The interface value built for one entry. A value is never a method. A function entry with
      a `.` is a plain function named after its last `.`; one with a `:` but no `.` is a method
      named after its last `:`; any other is a plain function named as written. */
  function EntryValue(entry: string, isFunc: bool, globalNameEmpty: bool): (v: GmodInterfaceValue)
    ensures v.fullname == entry
    ensures !isFunc ==> !v.classFunction && v.kind == None
    ensures isFunc && '.' in entry ==> !v.classFunction && v.kind == Some("Function")
    ensures isFunc && '.' !in entry && ':' in entry ==> v.classFunction && v.kind == Some("Method")
    ensures isFunc && '.' !in entry && ':' !in entry ==> !v.classFunction && v.kind == Some("Function")
  {
    if '.' in entry then
      New(ValueRecord(LastSegment(entry, '.'), entry, false, if isFunc then Some("Function") else None, None), globalNameEmpty)
    else if isFunc && ':' in entry then
      New(ValueRecord(LastSegment(entry, ':'), entry, true, Some("Method"), None), globalNameEmpty)
    else
      New(ValueRecord(entry, entry, false, if isFunc then Some("Function") else None, None), globalNameEmpty)
  }

  /** The table part of a dotted entry is collected once. */
  function NoteTable(tables: seq<string>, entry: string): seq<string>
  {
    if '.' in entry && BeforeLast(entry, '.') !in tables then tables + [BeforeLast(entry, '.')] else tables
  }

  /** The store's tables and caches, and the table names collected so far. */
  datatype Load = Load(sym: Tables, globalCache: seq<CompletionItem>, methodsCache: seq<CompletionItem>, tables: seq<string>)

  /** `AddNewInterfaceValue` on the store, tables and caches. */
  function AddToStore(l: Load, v: GmodInterfaceValue): Load
  {
    var l' := l.(sym := AddValue(l.sym, v));
    if !Accepts(v) then l'
    else if v.classFunction then l'.(methodsCache := [])
    else l'.(globalCache := [])
  }

  /** One entry: its table noted, and its value offered to the store unless its text is
      already a registered full name. */
  function LoadEntry(l: Load, entry: string, isFunc: bool, globalNameEmpty: bool): Load
  {
    var l' := l.(tables := NoteTable(l.tables, entry));
    if entry in l.sym.valuesLookup then l' else AddToStore(l', EntryValue(entry, isFunc, globalNameEmpty))
  }

  function LoadEntries(l: Load, entries: seq<string>, isFunc: bool, globalNameEmpty: bool): Load
    decreases entries
  {
    if |entries| == 0 then l
    else LoadEntries(LoadEntry(l, entries[0], isFunc, globalNameEmpty), entries[1..], isFunc, globalNameEmpty)
  }

  /** Each table is appended to the modules unless already there. */
  function AddModules(modules: seq<string>, tables: seq<string>): seq<string>
    decreases tables
  {
    if |tables| == 0 then modules
    else AddModules(if tables[0] in modules then modules else modules + [tables[0]], tables[1..])
  }

  /** `LoadAutocomplete`: the reported values are emptied, both caches are built, the value
      entries and then the function entries are loaded, and the collected tables are added to
      the modules. */
  function LoadRuntime(sym: Tables, methodsCache: seq<CompletionItem>, cl: ClientAutocompleteData, globalNameEmpty: bool): Load
  {
    var sym0 := sym.(interfaceValues := []);
    var l0 := Load(sym0, GlobalList(sym0), methodsCache + MethodList(sym0), []);
    var l1 := LoadEntries(l0, Split(cl.values, '|'), false, globalNameEmpty);
    var l2 := LoadEntries(l1, Split(cl.funcs, '|'), true, globalNameEmpty);
    l2.(sym := l2.sym.(modules := AddModules(l2.sym.modules, l2.tables)))
  }

  /** An entry a later load will not add again: its text is registered, or the store refuses it. */
  predicate Covered(sym: Tables, entry: string) {
    entry in sym.valuesLookup || entry == "" || entry in BuiltinConstants || entry in Keywords
  }

  /** Loading entries registers (or has refused) every one of them and never drops a key. */
  lemma {:induction false} LoadEntriesCovers(l: Load, entries: seq<string>, isFunc: bool, g: bool)
    ensures l.sym.valuesLookup.Keys <= LoadEntries(l, entries, isFunc, g).sym.valuesLookup.Keys
    ensures forall e :: e in entries ==> Covered(LoadEntries(l, entries, isFunc, g).sym, e)
    decreases entries
  {
    if |entries| > 0 {
      var mid := LoadEntry(l, entries[0], isFunc, g);
      LoadEntriesCovers(mid, entries[1..], isFunc, g);
      assert Covered(mid.sym, entries[0]);
      assert entries == [entries[0]] + entries[1..];
    }
  }

  /** Entries that are all covered change nothing but the collected tables. */
  lemma {:induction false} LoadEntriesIdle(l: Load, entries: seq<string>, isFunc: bool, g: bool)
    requires forall e :: e in entries ==> Covered(l.sym, e)
    ensures LoadEntries(l, entries, isFunc, g).sym == l.sym
    ensures LoadEntries(l, entries, isFunc, g).globalCache == l.globalCache
    ensures LoadEntries(l, entries, isFunc, g).methodsCache == l.methodsCache
    decreases entries
  {
    if |entries| > 0 {
      var e := entries[0];
      assert Covered(l.sym, e);
      LoadEntriesIdle(LoadEntry(l, e, isFunc, g), entries[1..], isFunc, g);
    }
  }

  /** Loading entries keeps the tables collected so far and collects the part before the last
      `.` of every dotted entry, and nothing else. */
  lemma {:induction false} LoadEntriesTables(l: Load, entries: seq<string>, isFunc: bool, g: bool)
    ensures var r := LoadEntries(l, entries, isFunc, g).tables;
      && (forall t :: t in l.tables ==> t in r)
      && (forall e :: e in entries && '.' in e ==> BeforeLast(e, '.') in r)
      && (forall t :: t in r ==> t in l.tables || exists e :: e in entries && '.' in e && t == BeforeLast(e, '.'))
    decreases entries
  {
    if |entries| > 0 {
      var mid := LoadEntry(l, entries[0], isFunc, g);
      assert mid.tables == NoteTable(l.tables, entries[0]);
      LoadEntriesTables(mid, entries[1..], isFunc, g);
      assert entries == [entries[0]] + entries[1..];
    }
  }

  /** After `LoadAutocomplete`, the modules are the earlier ones plus the table part of every
      dotted value or function entry, and nothing else. */
  lemma LoadRuntimeModules(sym: Tables, mc: seq<CompletionItem>, cl: ClientAutocompleteData, g: bool)
    ensures var m := LoadRuntime(sym, mc, cl, g).sym.modules;
      var entries := Split(cl.values, '|') + Split(cl.funcs, '|');
      && (forall t :: t in sym.modules ==> t in m)
      && (forall e :: e in entries && '.' in e ==> BeforeLast(e, '.') in m)
      && (forall t :: t in m ==> t in sym.modules || exists e :: e in entries && '.' in e && t == BeforeLast(e, '.'))
  {
    var sym0 := sym.(interfaceValues := []);
    var l0 := Load(sym0, GlobalList(sym0), mc + MethodList(sym0), []);
    var values, funcs := Split(cl.values, '|'), Split(cl.funcs, '|');
    var l2 := LoadEntries(LoadEntries(l0, values, false, g), funcs, true, g);
    assert LoadRuntime(sym, mc, cl, g).sym.modules == AddModules(l2.sym.modules, l2.tables);
    TwoPassModules(l0, values, funcs, g);
  }

  /** The two loading passes and the closing `forEach`, from no collected tables. */
  lemma TwoPassModules(l0: Load, values: seq<string>, funcs: seq<string>, g: bool)
    requires l0.tables == []
    ensures var l2 := LoadEntries(LoadEntries(l0, values, false, g), funcs, true, g);
      var m := AddModules(l2.sym.modules, l2.tables);
      && (forall t :: t in l0.sym.modules ==> t in m)
      && (forall e :: e in values + funcs && '.' in e ==> BeforeLast(e, '.') in m)
      && (forall t :: t in m ==> t in l0.sym.modules || exists e :: e in values + funcs && '.' in e && t == BeforeLast(e, '.'))
  {
    var l1 := LoadEntries(l0, values, false, g);
    var l2 := LoadEntries(l1, funcs, true, g);
    LoadEntriesTables(l0, values, false, g);
    LoadEntriesTables(l1, funcs, true, g);
    LoadEntriesModules(l0, values, false, g);
    LoadEntriesModules(l1, funcs, true, g);
    AddModulesContents(l2.sym.modules, l2.tables);
    AddModulesOnly(l2.sym.modules, l2.tables);
  }

  /** Loading entries leaves the modules alone. */
  lemma {:induction false} LoadEntriesModules(l: Load, entries: seq<string>, isFunc: bool, g: bool)
    ensures LoadEntries(l, entries, isFunc, g).sym.modules == l.sym.modules
    decreases entries
  {
    if |entries| > 0 {
      LoadEntriesModules(LoadEntry(l, entries[0], isFunc, g), entries[1..], isFunc, g);
    }
  }

  /** Adding tables to the modules adds nothing but those tables. */
  lemma {:induction false} AddModulesOnly(modules: seq<string>, tables: seq<string>)
    ensures forall t :: t in AddModules(modules, tables) ==> t in modules || t in tables
    decreases tables
  {
    if |tables| > 0 {
      var next := if tables[0] in modules then modules else modules + [tables[0]];
      AddModulesOnly(next, tables[1..]);
      assert tables == [tables[0]] + tables[1..];
    }
  }

  /** Every collected table becomes a module, and no module is listed twice. */
  lemma {:induction false} AddModulesContents(modules: seq<string>, tables: seq<string>)
    ensures forall t :: t in tables || t in modules ==> t in AddModules(modules, tables)
    ensures Gwiki.NoDuplicates(modules) ==> Gwiki.NoDuplicates(AddModules(modules, tables))
    ensures (forall t :: t in tables ==> t in modules) ==> AddModules(modules, tables) == modules
    decreases tables
  {
    if |tables| > 0 {
      var next := if tables[0] in modules then modules else modules + [tables[0]];
      AddModulesContents(next, tables[1..]);
      assert tables == [tables[0]] + tables[1..];
    }
  }

  /** A second identical load adds no interface value: every entry was registered (or refused)
      by the first, the list was emptied, and the lookups stay as the first load left them. */
  lemma LoadTwiceAddsNothing(sym: Tables, mc: seq<CompletionItem>, mc2: seq<CompletionItem>,
                             cl: ClientAutocompleteData, g: bool)
    ensures var first := LoadRuntime(sym, mc, cl, g);
      var second := LoadRuntime(first.sym, mc2, cl, g);
      && second.sym.interfaceValues == []
      && second.sym.valuesLookup == first.sym.valuesLookup
      && second.sym.methodsLookup == first.sym.methodsLookup
  {
    var values, funcs := Split(cl.values, '|'), Split(cl.funcs, '|');
    var sym0 := sym.(interfaceValues := []);
    var l0 := Load(sym0, GlobalList(sym0), mc + MethodList(sym0), []);
    var l1 := LoadEntries(l0, values, false, g);
    LoadEntriesCovers(l0, values, false, g);
    var l2 := LoadEntries(l1, funcs, true, g);
    LoadEntriesCovers(l1, funcs, true, g);
    var first := LoadRuntime(sym, mc, cl, g);
    assert first.sym.valuesLookup == l2.sym.valuesLookup;
    var s0 := first.sym.(interfaceValues := []);
    var m0 := Load(s0, GlobalList(s0), mc2 + MethodList(s0), []);
    LoadEntriesIdle(m0, values, false, g);
    var m1 := LoadEntries(m0, values, false, g);
    LoadEntriesIdle(m1, funcs, true, g);
  }

  /** `LoadAutocomplete`, over the store. */
  method LoadAutocomplete(data: AutocompletionData, cl: ClientAutocompleteData, globalNameEmpty: bool)
    modifies data
    ensures var l := LoadRuntime(old(data.Symbols()), old(data.methodsCache), cl, globalNameEmpty);
      data.Symbols() == l.sym && data.globalCache == l.globalCache && data.methodsCache == l.methodsCache
  {
    ghost var sym0 := old(data.Symbols()).(interfaceValues := []);
    ghost var l0 := Load(sym0, GlobalList(sym0), old(data.methodsCache) + MethodList(sym0), []);
    ghost var l1 := LoadEntries(l0, Split(cl.values, '|'), false, globalNameEmpty);
    ghost var l2 := LoadEntries(l1, Split(cl.funcs, '|'), true, globalNameEmpty);
    ResetAndCache(data);
    var tables := LoadList(data, Split(cl.values, '|'), false, globalNameEmpty, []);
    assert data.Symbols() == l1.sym && tables == l1.tables;
    tables := LoadList(data, Split(cl.funcs, '|'), true, globalNameEmpty, tables);
    assert data.Symbols() == l2.sym && tables == l2.tables;
    AddModulesTo(data, tables);
  }

  /** The start of `LoadAutocomplete`: the reported values are emptied and both caches built. */
  method ResetAndCache(data: AutocompletionData)
    modifies data`interfaceValues, data`globalCache, data`methodsCache
    ensures var sym0 := old(data.Symbols()).(interfaceValues := []);
      data.Symbols() == sym0 && data.globalCache == GlobalList(sym0)
      && data.methodsCache == old(data.methodsCache) + MethodList(sym0)
  {
    data.interfaceValues := [];
    data.GenerateMethodsCache();
    data.GenerateGlobalCache();
  }

  /** The closing `forEach` over the collected tables. */
  method AddModulesTo(data: AutocompletionData, tables: seq<string>)
    modifies data`modules
    ensures data.modules == AddModules(old(data.modules), tables)
  {
    for i := 0 to |tables|
      invariant AddModules(data.modules, tables[i..]) == AddModules(old(data.modules), tables)
    {
      assert tables[i..][1..] == tables[i + 1..];
      if tables[i] !in data.modules {
        data.modules := data.modules + [tables[i]];
      }
    }
  }

  /** One `forEach` over the entries of a list. */
  method LoadList(data: AutocompletionData, entries: seq<string>, isFunc: bool, globalNameEmpty: bool, tables: seq<string>)
    returns (tables': seq<string>)
    modifies data`interfaceValues, data`valuesLookup, data`methodsLookup, data`globalCache, data`methodsCache
    ensures var l := LoadEntries(Load(old(data.Symbols()), old(data.globalCache), old(data.methodsCache), tables),
                                 entries, isFunc, globalNameEmpty);
      data.Symbols() == l.sym && data.globalCache == l.globalCache && data.methodsCache == l.methodsCache
      && tables' == l.tables
  {
    tables' := tables;
    ghost var goal := LoadEntries(Load(data.Symbols(), data.globalCache, data.methodsCache, tables), entries, isFunc, globalNameEmpty);
    for i := 0 to |entries|
      invariant LoadEntries(Load(data.Symbols(), data.globalCache, data.methodsCache, tables'), entries[i..], isFunc, globalNameEmpty) == goal
    {
      assert entries[i..][1..] == entries[i + 1..];
      var entry := entries[i];
      tables' := NoteTable(tables', entry);
      if entry !in data.valuesLookup {
        data.AddNewInterfaceValue(EntryValue(entry, isFunc, globalNameEmpty));
      }
    }
  }

  /** `LoadAutocompleteState`: the wiki data is ingested for the given realm, then both caches
      are emptied. */
  method LoadAutocompleteState(data: AutocompletionData, gwikiData: seq<Gwiki.RawElement>, state: string)
    returns (rewritten: seq<Gwiki.RawElement>)
    modifies data
    ensures data.Symbols() == Gwiki.IngestAll(old(data.Symbols()), gwikiData, state)
    ensures rewritten == Gwiki.RewrittenAll(gwikiData, state)
    ensures data.globalCache == [] && data.methodsCache == []
  {
    rewritten := Gwiki.LoadAutocompletionData(data, gwikiData, state);
    data.ClearAutocompleteCache();
  }

  /** `ResetAutocompletion`: the store is replaced by an empty one. */
  method ResetAutocompletion() returns (data: AutocompletionData)
    ensures fresh(data)
    ensures data.Symbols() == EmptySymbols && data.globalCache == [] && data.methodsCache == []
  {
    data := ResetAutocomplete();
  }

  // ---------------------------------------------------------------------------------------
  // The input line's key handler

  datatype Key = Enter | UpArrow | DownArrow | OtherKey

  /** What the handler does with the event: returns before handling it (the suggestion list is
      open and the key is not Enter), handles it (cancelling the default action or not, and
      maybe passing code to the game), or throws when reading past the history. */
  datatype KeyOutcome = Ignored | Handled(prevented: bool, submitted: Option<string>) | Threw

  /** The REPL's fields, the input line's text and the output editor's text. */
  datatype ReplState = ReplState(
    replLines: map<int, int>,
    history: seq<string>,
    historyIndex: int,
    replCounter: int,
    input: string,
    output: string)

  /** The editor's line count: one more than the number of line breaks. */
  function LineCount(text: string): nat {
    |Split(text, '\n')|
  }

  /** The key handler, as written: the Up bound is the length of the page's navigation
      history, `historyBound`, not of the REPL's own history. */
  function KeyDown(st: ReplState, key: Key, suggestOpen: bool, historyBound: int): (ReplState, KeyOutcome)
  {
    if suggestOpen && !key.Enter? then (st, Ignored)
    else
      match key
      case Enter =>
        if Trim(st.input) == "" then (st, Handled(true, None))
        else
          var code := st.input;
          var output := st.output + code + "\n";
          (st.(output := output,
               replLines := st.replLines[LineCount(output) - 1 := st.replCounter],
               replCounter := st.replCounter + 1,
               input := "",
               history := [code] + st.history,
               historyIndex := 0),
           Handled(true, Some(code)))
      case UpArrow =>
        if st.historyIndex >= historyBound then (st, Handled(true, None))
        else
          var i := st.historyIndex + 1;
          if 0 <= i - 1 < |st.history| then (st.(historyIndex := i, input := st.history[i - 1]), Handled(true, None))
          else (st.(historyIndex := i), Threw)
      case DownArrow =>
        if st.historyIndex == 1 then (st.(input := "", historyIndex := 0), Handled(true, None))
        else if st.historyIndex == 0 then (st, Handled(true, None))
        else
          var i := st.historyIndex - 1;
          if 0 <= i - 1 < |st.history| then (st.(historyIndex := i, input := st.history[i - 1]), Handled(true, None))
          else (st.(historyIndex := i), Threw)
      case OtherKey => (st, Handled(false, None))
  }

  /** The handler's invariant: the history position is never negative and every numbered line
      carries a number already handed out. */
  predicate ValidState(st: ReplState) {
    st.historyIndex >= 0 && st.replCounter >= 0 && forall k :: k in st.replLines ==> 0 <= st.replLines[k] < st.replCounter
  }

  lemma KeyDownKeepsValid(st: ReplState, key: Key, suggestOpen: bool, historyBound: int)
    requires ValidState(st)
    ensures ValidState(KeyDown(st, key, suggestOpen, historyBound).0)
  {
    var st' := KeyDown(st, key, suggestOpen, historyBound).0;
    if key.Enter? && Trim(st.input) != "" {
      assert st'.output == st.output + st.input + "\n";
      assert st'.replLines == st.replLines[LineCount(st'.output) - 1 := st.replCounter];
      assert st'.replCounter == st.replCounter + 1;
      forall k | k in st'.replLines
        ensures 0 <= st'.replLines[k] < st'.replCounter
      {
        if k in st.replLines && k != LineCount(st'.output) - 1 {
          assert st'.replLines[k] == st.replLines[k];
        }
      }
    } else {
      assert st'.replLines == st.replLines && st'.replCounter == st.replCounter;
    }
  }

  /** Enter on a line of white space changes nothing; on any other line the code is submitted,
      put first in the history, the position is reset, the output's last line is numbered with
      the counter and the counter advances. */
  lemma EnterEffect(st: ReplState, suggestOpen: bool, historyBound: int)
    ensures IsBlank(st.input) ==> KeyDown(st, Enter, suggestOpen, historyBound) == (st, Handled(true, None))
    ensures !IsBlank(st.input) ==>
      var (st', outcome) := KeyDown(st, Enter, suggestOpen, historyBound);
      && outcome == Handled(true, Some(st.input))
      && st'.history == [st.input] + st.history && st'.historyIndex == 0
      && st'.output == st.output + st.input + "\n" && st'.input == ""
      && st'.replLines == st.replLines[LineCount(st'.output) - 1 := st.replCounter]
      && st'.replCounter == st.replCounter + 1
  {
    TrimEmptyIffBlank(st.input);
  }

  /** Up then Down returns to the same history position, showing the entry there again (or an
      empty line at position 0). */
  lemma UpThenDown(st: ReplState, historyBound: int)
    requires 0 <= st.historyIndex < historyBound && st.historyIndex < |st.history|
    ensures var (up, _) := KeyDown(st, UpArrow, false, historyBound);
      var (down, outcome) := KeyDown(up, DownArrow, false, historyBound);
      && down.historyIndex == st.historyIndex
      && down.input == (if st.historyIndex == 0 then "" else st.history[st.historyIndex - 1])
      && outcome == Handled(true, None)
  {
  }

  /** As written, Up with an empty REPL history and one page in the navigation history reads
      past the REPL history. */
  lemma UpReadsPastHistory()
    ensures KeyDown(ReplState(map[], [], 0, 0, "", ""), UpArrow, false, 1)
      == (ReplState(map[], [], 1, 0, "", ""), Threw)
  {
  }

  /** The handler with the Up bound taken from the REPL's own history. */
  function KeyDownCorrected(st: ReplState, key: Key, suggestOpen: bool): (ReplState, KeyOutcome)
  {
    KeyDown(st, key, suggestOpen, |st.history|)
  }

  /** With that bound the position stays within the history and no key reads past it. */
  lemma KeyDownCorrectedInRange(st: ReplState, key: Key, suggestOpen: bool)
    requires ValidState(st) && st.historyIndex <= |st.history|
    ensures var (st', outcome) := KeyDownCorrected(st, key, suggestOpen);
      ValidState(st') && st'.historyIndex <= |st'.history| && !outcome.Threw?
  {
    KeyDownKeepsValid(st, key, suggestOpen, |st.history|);
  }

  class ReplInterface {
    var replLines: map<int, int>
    var history: seq<string>
    var historyIndex: int
    var replCounter: int
    /** The input line's text. */
    var input: string
    /** The output editor's text. */
    var output: string

    function State(): ReplState
      reads this
    {
      ReplState(replLines, history, historyIndex, replCounter, input, output)
    }

    predicate Valid()
      reads this
    {
      ValidState(State())
    }

    constructor ()
      ensures State() == ReplState(map[], [], 0, 0, "", "")
      ensures Valid()
    {
      replLines, history, historyIndex, replCounter := map[], [], 0, 0;
      input, output := "", "";
    }

    /** `AddText`: the text and a line break are appended to the output. */
    method AddText(text: string)
      modifies this`output
      ensures output == old(output) + text + "\n"
    {
      output := output + text + "\n";
    }

    /** `Clear`: the line numbering and the output are emptied; the counter is kept. */
    method Clear()
      modifies this`replLines, this`output
      ensures replLines == map[] && output == ""
    {
      replLines := map[];
      output := "";
    }

    /** `Reset`: the counter restarts, then `Clear`. */
    method Reset()
      modifies this`replLines, this`output, this`replCounter
      ensures replLines == map[] && output == "" && replCounter == 0
    {
      replCounter := 0;
      Clear();
    }

    /** The `onKeyDown` handler of the input line. */
    method OnKeyDown(key: Key, suggestOpen: bool, historyBound: int) returns (outcome: KeyOutcome)
      requires Valid()
      modifies this
      ensures (State(), outcome) == KeyDown(old(State()), key, suggestOpen, historyBound)
      ensures Valid()
    {
      ghost var st := State();
      KeyDownKeepsValid(st, key, suggestOpen, historyBound);
      if suggestOpen && !key.Enter? {
        return Ignored;
      }
      match key {
        case Enter =>
          var code := input;
          if Trim(code) == "" {
            return Handled(true, None);
          }
          AddText(code);
          replLines := replLines[LineCount(output) - 1 := replCounter];
          replCounter := replCounter + 1;
          input := "";
          history := [code] + history;
          historyIndex := 0;
          outcome := Handled(true, Some(code));
        case UpArrow =>
          if historyIndex >= historyBound {
            return Handled(true, None);
          }
          historyIndex := historyIndex + 1;
          if historyIndex - 1 >= |history| {
            return Threw;
          }
          input := history[historyIndex - 1];
          outcome := Handled(true, None);
        case DownArrow =>
          if historyIndex == 1 {
            input := "";
            historyIndex := 0;
            return Handled(true, None);
          }
          if historyIndex == 0 {
            return Handled(true, None);
          }
          historyIndex := historyIndex - 1;
          if historyIndex - 1 >= |history| {
            return Threw;
          }
          input := history[historyIndex - 1];
          outcome := Handled(true, None);
        case OtherKey =>
          outcome := Handled(false, None);
      }
    }
  }
}
