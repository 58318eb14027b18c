/**
  Ingestion of the scraped wiki data: each element of the downloaded array is normalised in
  place (argument, return and example lists, the description object) and routed into the symbol
  store by realm and kind; enumeration groups are flattened into the enum list.
 */
module Gwiki {
  import opened Wrappers
  import opened Funcs
  import opened Enums
  import opened Items
  import opened Autocompletion

  /** A JSON field that may be missing, hold one object, or hold an array of them. */
  datatype ListField<T> = Absent | One(item: T) | Many(items: seq<T>)

  /** `args` (or `rets`): missing, the wiki's wrapper object `{arg: ...}`, or a bare array, which
      is what an earlier normalisation leaves behind in the shared data. */
  datatype Wrapped<T> = Missing | Wrapper(inner: ListField<T>) | Bare(items: seq<T>)

  /** `description`: missing, a plain string, or an object whose `text` may be missing. */
  datatype RawDescription =
    | NoDescription
    | DescriptionText(s: string)
    | DescriptionObject(text: Option<string>, internal: Option<string>, deprecated: Option<string>)

  /** The `function` object of a wiki element, as downloaded or as a previous pass rewrote it. */
  datatype RawFunction = RawFunction(
    name: string,
    parent: string,
    kind: string,
    description: RawDescription,
    realm: string,
    args: Wrapped<Arg>,
    rets: Wrapped<Ret>,
    example: ListField<Example>)

  /** An enumeration leaf, or an object with its own `items` (and maybe a `description`). */
  datatype EnumElem =
    | Leaf(key: string, value: string, text: Option<string>)
    | Subgroup(items: seq<EnumElem>, description: Option<string>)

  /** An element of an `enum` array: its `item` list. */
  datatype ItemList = ItemList(item: seq<EnumElem>)

  /** The `enum` field of a wiki element: an object whose own `enum` field is an array, a group
      `{items: {item: [...]}, description}`, or a bare array of elements. */
  datatype EnumJson =
    | EnumArray(lists: seq<ItemList>)
    | Group(items: seq<EnumElem>, description: Option<string>)
    | Elements(elems: seq<EnumElem>)

  datatype RawElement = RawElement(
    realms: seq<string>,
    funcField: Option<RawFunction>,
    enumField: Option<EnumJson>,
    example: ListField<Example>)

  // ---------------------------------------------------------------------------------------
  // Normalising one function element

  /** The list `args` or `rets` becomes. An array left by an earlier pass stays that array (see
      `NormalizeListAsWritten` for what the code does with it). */
  function NormalizeList<T>(w: Wrapped<T>): (r: seq<T>)
    ensures w.Wrapper? && w.inner.One? ==> r == [w.inner.item]
    ensures w.Wrapper? && w.inner.Many? ==> r == w.inner.items
    ensures w.Missing? || (w.Wrapper? && w.inner.Absent?) ==> r == []
    ensures w.Bare? ==> r == w.items
  {
    match w
    case Missing => []
    case Wrapper(inner) =>
      (match inner
       case Absent => []
       case One(x) => [x]
       case Many(xs) => xs)
    case Bare(xs) => xs
  }

  /** The code as written: a bare array has no `arg` (or `ret`) field, so it becomes `[]`. */
  function NormalizeListAsWritten<T>(w: Wrapped<T>): (r: seq<T>)
    ensures !w.Bare? ==> r == NormalizeList(w)
    ensures w.Bare? ==> r == []
  {
    match w
    case Missing => []
    case Wrapper(inner) =>
      (match inner
       case Absent => []
       case One(x) => [x]
       case Many(xs) => xs)
    case Bare(_) => []
  }

  /** Normalising the list a normalisation produced gives the same list back. */
  lemma NormalizeListStable<T>(w: Wrapped<T>)
    ensures NormalizeList(Bare(NormalizeList(w))) == NormalizeList(w)
  {
  }

  /** As written, a second normalisation of a single argument loses it. */
  lemma NormalizeListAsWrittenLosesArgs(a: Arg)
    ensures NormalizeListAsWritten(Wrapper(One(a))) == [a]
    ensures NormalizeListAsWritten(Bare(NormalizeListAsWritten(Wrapper(One(a))))) == []
  {
  }

  /** The description object: a string is the text, a missing or empty text becomes "", and a
      missing description becomes an empty one. */
  function NormalizeDescription(d: RawDescription): (r: Description)
    ensures d.DescriptionText? ==> r == Description(d.s, None, None)
    ensures d.NoDescription? ==> r == Description("", None, None)
    ensures d.DescriptionObject? ==>
      r.text == OrElse(d.text, "") && r.internal == d.internal && r.deprecated == d.deprecated
  {
    match d
    case NoDescription => Description("", None, None)
    case DescriptionText(s) => Description(s, None, None)
    case DescriptionObject(text, internal, deprecated) =>
      Description(if Truthy(text) then text.value else "", internal, deprecated)
  }

  /** `elem.example || parentElem.example`, then wrapped into an array: an array (even an empty
      one) is truthy, so only a missing leaf field falls back to the parent's. */
  function ChosenExamples(own: ListField<Example>, parent: ListField<Example>): (r: seq<Example>)
    ensures own.Many? ==> r == own.items
    ensures own.One? ==> r == [own.item]
    ensures own.Absent? && parent.Many? ==> r == parent.items
    ensures own.Absent? && parent.One? ==> r == [parent.item]
    ensures own.Absent? && parent.Absent? ==> r == []
  {
    var chosen := if own.Absent? then parent else own;
    match chosen
    case Absent => []
    case One(x) => [x]
    case Many(xs) => xs
  }

  predicate HasTextCode(e: Example) {
    e.code.Source?
  }

  /** The `forEach` with `splice` over the examples, resumed at index `k`: an entry whose code is
      not a string is removed, and the walk moves on to index k + 1, past the entry that slid
      into its place. `forEach` stops at indices the shortened array no longer has. */
  function SpliceScan(a: seq<Example>, k: nat): seq<Example>
    decreases |a| - k
  {
    if k >= |a| then a
    else if !HasTextCode(a[k]) then SpliceScan(a[..k] + a[k + 1..], k + 1)
    else SpliceScan(a, k + 1)
  }

  /** What survives the scan, described from the front: a removed entry takes the next entry
      with it unexamined. */
  function Kept(a: seq<Example>): seq<Example>
  {
    if |a| == 0 then []
    else if HasTextCode(a[0]) then [a[0]] + Kept(a[1..])
    else if |a| == 1 then []
    else [a[1]] + Kept(a[2..])
  }

  lemma {:induction false} SpliceScanKept(p: seq<Example>, s: seq<Example>)
    ensures SpliceScan(p + s, |p|) == p + Kept(s)
    decreases |s|
  {
    if |s| == 0 {
      assert p + s == p;
    } else if HasTextCode(s[0]) {
      SpliceScanKept(p + [s[0]], s[1..]);
      ScanKeepStep(p, s);
    } else if |s| == 1 {
      ScanDropLast(p, s);
    } else {
      SpliceScanKept(p + [s[1]], s[2..]);
      ScanDropStep(p, s);
    }
  }

  /** An entry with string code is kept and the scan moves past it. */
  lemma ScanKeepStep(p: seq<Example>, s: seq<Example>)
    requires |s| > 0 && HasTextCode(s[0])
    requires SpliceScan((p + [s[0]]) + s[1..], |p + [s[0]]|) == (p + [s[0]]) + Kept(s[1..])
    ensures SpliceScan(p + s, |p|) == p + Kept(s)
  {
    assert (p + s)[|p|] == s[0];
    assert (p + [s[0]]) + s[1..] == p + s;
    assert Kept(s) == [s[0]] + Kept(s[1..]);
    assert (p + [s[0]]) + Kept(s[1..]) == p + ([s[0]] + Kept(s[1..]));
  }

  /** An entry without string code is removed and the scan skips the entry after it. */
  lemma ScanDropStep(p: seq<Example>, s: seq<Example>)
    requires |s| > 1 && !HasTextCode(s[0])
    requires SpliceScan((p + [s[1]]) + s[2..], |p + [s[1]]|) == (p + [s[1]]) + Kept(s[2..])
    ensures SpliceScan(p + s, |p|) == p + Kept(s)
  {
    var a := p + s;
    assert a[|p|] == s[0];
    assert a[..|p|] + a[|p| + 1..] == (p + [s[1]]) + s[2..];
    assert Kept(s) == [s[1]] + Kept(s[2..]);
    assert (p + [s[1]]) + Kept(s[2..]) == p + ([s[1]] + Kept(s[2..]));
  }

  /** A last entry without string code is removed and the scan ends. */
  lemma ScanDropLast(p: seq<Example>, s: seq<Example>)
    requires |s| == 1 && !HasTextCode(s[0])
    ensures SpliceScan(p + s, |p|) == p + Kept(s)
  {
    var a := p + s;
    assert a[|p|] == s[0];
    assert a[..|p|] + a[|p| + 1..] == p;
  }

  /** The scan from the start keeps exactly `Kept`. */
  lemma SpliceScanFromStart(a: seq<Example>)
    ensures SpliceScan(a, 0) == Kept(a)
  {
    SpliceScanKept([], a);
    assert [] + a == a;
  }

  /** Nothing but input entries survive, and every entry with string code survives; an entry
      with non-string code survives when it directly follows a removed one. */
  lemma {:induction false} KeptMembers(a: seq<Example>)
    ensures forall e :: e in Kept(a) ==> e in a
    ensures forall e :: e in a && HasTextCode(e) ==> e in Kept(a)
    ensures |Kept(a)| <= |a|
    decreases |a|
  {
    if |a| == 1 {
    } else if |a| > 1 {
      if HasTextCode(a[0]) {
        KeptMembers(a[1..]);
        assert a == [a[0]] + a[1..];
      } else {
        KeptMembers(a[2..]);
        assert a == [a[0], a[1]] + a[2..];
      }
    }
  }

  /** Two entries with non-string code: the second survives. */
  lemma KeptSkipsAfterRemoval(bad1: Example, bad2: Example)
    requires !HasTextCode(bad1) && !HasTextCode(bad2)
    ensures SpliceScan([bad1, bad2], 0) == [bad2]
  {
    SpliceScanFromStart([bad1, bad2]);
  }

  /** The `forEach`/`splice` loop itself. */
  method FilterExamples(examples: seq<Example>) returns (kept: seq<Example>)
    ensures kept == Kept(examples)
  {
    kept := examples;
    var len := |examples|;
    for idx := 0 to len
      invariant |kept| <= len
      invariant SpliceScan(kept, idx) == SpliceScan(examples, 0)
    {
      if idx < |kept| && !HasTextCode(kept[idx]) {
        kept := kept[..idx] + kept[idx + 1..];
      }
    }
    SpliceScanFromStart(examples);
  }

  /** The function record `new GluaFunc(elem)` builds from the element as `PreprocessGWikiElem`
      normalises it, as written: an `args` or `rets` array left by an earlier pass becomes `[]`. */
  function Normalized(elem: RawFunction, parentExample: ListField<Example>): GluaFunc
  {
    GluaFunc(elem.name, elem.parent, elem.kind, NormalizeDescription(elem.description), elem.realm,
      NormalizeListAsWritten(elem.args), NormalizeListAsWritten(elem.rets),
      Kept(ChosenExamples(elem.example, parentExample)))
  }

  /** The element as `PreprocessGWikiElem` leaves it in the shared data. */
  function Rewritten(elem: RawFunction, parentExample: ListField<Example>): RawFunction
  {
    var f := Normalized(elem, parentExample);
    elem.(description := DescriptionObject(Some(f.description.text), f.description.internal, f.description.deprecated),
          args := Bare(f.args), rets := Bare(f.rets), example := Many(f.examples))
  }

  /** As written, normalising a rewritten element again keeps its description but empties its
      arguments and return values, whatever the first pass found. */
  lemma ReloadEmptiesLists(elem: RawFunction, parentExample: ListField<Example>)
    ensures var again := Normalized(Rewritten(elem, parentExample), parentExample);
      again.args == [] && again.rets == []
      && again.description == Normalized(elem, parentExample).description
  {
  }

  /** An element with one argument: the first pass documents it, the second loses it. */
  lemma ReloadLosesArgument(elem: RawFunction, parentExample: ListField<Example>, a: Arg)
    requires elem.args == Wrapper(One(a))
    ensures Normalized(elem, parentExample).args == [a]
    ensures Normalized(Rewritten(elem, parentExample), parentExample).args == []
  {
    ReloadEmptiesLists(elem, parentExample);
  }

  /** The corrected normalisation: an array left by an earlier pass is kept. */
  function CorrectedNormalized(elem: RawFunction, parentExample: ListField<Example>): GluaFunc
  {
    GluaFunc(elem.name, elem.parent, elem.kind, NormalizeDescription(elem.description), elem.realm,
      NormalizeList(elem.args), NormalizeList(elem.rets), Kept(ChosenExamples(elem.example, parentExample)))
  }

  /** The element as the corrected normalisation leaves it. */
  function CorrectedRewritten(elem: RawFunction, parentExample: ListField<Example>): RawFunction
  {
    var f := CorrectedNormalized(elem, parentExample);
    elem.(description := DescriptionObject(Some(f.description.text), f.description.internal, f.description.deprecated),
          args := Bare(f.args), rets := Bare(f.rets), example := Many(f.examples))
  }

  /** With the correction, normalising a rewritten element again gives the same arguments,
      return values and description; on a first load both normalisations agree. */
  lemma CorrectedNormalizedStable(elem: RawFunction, parentExample: ListField<Example>)
    ensures var again := CorrectedNormalized(CorrectedRewritten(elem, parentExample), parentExample);
      && again.args == CorrectedNormalized(elem, parentExample).args
      && again.rets == CorrectedNormalized(elem, parentExample).rets
      && again.description == CorrectedNormalized(elem, parentExample).description
    ensures !elem.args.Bare? && !elem.rets.Bare? ==>
      CorrectedNormalized(elem, parentExample) == Normalized(elem, parentExample)
  {
  }

  /** `PreprocessGWikiElem` followed by `new GluaFunc(funcElem)`: the element is rewritten field
      by field, the examples through the `splice` loop. */
  method PreprocessGWikiElem(elem: RawFunction, parentExample: ListField<Example>)
    returns (rewritten: RawFunction, func: GluaFunc)
    ensures rewritten == Rewritten(elem, parentExample)
    ensures func == Normalized(elem, parentExample)
  {
    rewritten := elem;
    var args := NormalizeListAsWritten(elem.args);
    rewritten := rewritten.(args := Bare(args));
    var rets := NormalizeListAsWritten(elem.rets);
    rewritten := rewritten.(rets := Bare(rets));
    var description := NormalizeDescription(elem.description);
    rewritten := rewritten.(description := DescriptionObject(Some(description.text), description.internal, description.deprecated));
    var examples := ChosenExamples(elem.example, parentExample);
    examples := FilterExamples(examples);
    rewritten := rewritten.(example := Many(examples));
    func := GluaFunc(elem.name, elem.parent, elem.kind, description, elem.realm, args, rets, examples);
  }

  // ---------------------------------------------------------------------------------------
  // Flattening enumerations

  /** One leaf: skipped when its key is already registered, otherwise registered and appended
      with the enclosing object's description. */
  function AddLeaf(sym: Tables, key: string, value: string, text: Option<string>, tableDesc: Option<string>): Tables
  {
    if key in sym.valuesLookup then sym
    else
      var e := GluaEnum(key, value, text, tableDesc);
      sym.(valuesLookup := sym.valuesLookup[key := EnumItem(e)], enums := sym.enums + [e])
  }

  function AddElem(sym: Tables, e: EnumElem, tableDesc: Option<string>): Tables
    decreases e, 1
  {
    match e
    case Leaf(key, value, text) => AddLeaf(sym, key, value, text, tableDesc)
    case Subgroup(items, description) => AddElems(sym, items, description)
  }

  /** The elements of one object, in order, with its description. */
  function AddElems(sym: Tables, elems: seq<EnumElem>, tableDesc: Option<string>): Tables
    decreases elems, 0
  {
    if |elems| == 0 then sym else AddElems(AddElem(sym, elems[0], tableDesc), elems[1..], tableDesc)
  }

  function AddLists(sym: Tables, lists: seq<ItemList>): Tables
    decreases lists
  {
    if |lists| == 0 then sym else AddLists(AddElems(sym, lists[0].item, None), lists[1..])
  }

  /** `addEnum(elem.enum)`. Groups reached through an `enum` array and elements of a bare array
      have no description. */
  function AddEnumJson(sym: Tables, j: EnumJson): Tables
  {
    match j
    case EnumArray(lists) => AddLists(sym, lists)
    case Group(items, description) => AddElems(sym, items, description)
    case Elements(elems) => AddElems(sym, elems, None)
  }

  /** The store's invariant for enumerations: every listed enum's key is registered, and no two
      listed enums share a key. */
  predicate EnumsIndexed(sym: Tables) {
    && (forall i :: 0 <= i < |sym.enums| ==> sym.enums[i].key in sym.valuesLookup)
    && (forall i, j :: 0 <= i < j < |sym.enums| ==> sym.enums[i].key != sym.enums[j].key)
  }

  /** What flattening may change: registered keys keep their entries (the first occurrence of
      a key wins), enums are only appended and stay indexed, and no other table changes. */
  predicate Grows(before: Tables, after: Tables) {
    && before.valuesLookup.Keys <= after.valuesLookup.Keys
    && (forall k :: k in before.valuesLookup ==> after.valuesLookup[k] == before.valuesLookup[k])
    && |before.enums| <= |after.enums|
    && after.enums[..|before.enums|] == before.enums
    && after.(valuesLookup := before.valuesLookup, enums := before.enums) == before
    && (EnumsIndexed(before) ==> EnumsIndexed(after))
  }

  lemma GrowsTransitive(a: Tables, b: Tables, c: Tables)
    requires Grows(a, b) && Grows(b, c)
    ensures Grows(a, c)
  {
    assert c.enums[..|a.enums|] == c.enums[..|b.enums|][..|a.enums|];
  }

  /** A leaf whose key is registered changes nothing (the first occurrence wins); a new one
      becomes an enum with the enclosing object's description, appended and registered. */
  lemma AddLeafGrows(sym: Tables, key: string, value: string, text: Option<string>, tableDesc: Option<string>)
    ensures Grows(sym, AddLeaf(sym, key, value, text, tableDesc))
    ensures key in AddLeaf(sym, key, value, text, tableDesc).valuesLookup
    ensures key in sym.valuesLookup ==> AddLeaf(sym, key, value, text, tableDesc) == sym
    ensures key !in sym.valuesLookup ==>
      var e := GluaEnum(key, value, text, tableDesc);
      && AddLeaf(sym, key, value, text, tableDesc).enums == sym.enums + [e]
      && AddLeaf(sym, key, value, text, tableDesc).valuesLookup[key] == EnumItem(e)
  {
    var r := AddLeaf(sym, key, value, text, tableDesc);
    if key !in sym.valuesLookup {
      assert r.enums[..|sym.enums|] == sym.enums;
      if EnumsIndexed(sym) {
        forall i, j | 0 <= i < j < |r.enums|
          ensures r.enums[i].key != r.enums[j].key
        {
          if j == |sym.enums| {
            assert sym.enums[i].key in sym.valuesLookup;
          }
        }
      }
    }
  }

  /** The keys of every leaf an element holds. */
  function LeafKeys(elems: seq<EnumElem>): set<string>
    decreases elems
  {
    if |elems| == 0 then {}
    else
      (match elems[0]
       case Leaf(key, _, _) => {key}
       case Subgroup(items, _) => LeafKeys(items))
      + LeafKeys(elems[1..])
  }

  /** Flattening a list of elements registers every leaf key and only grows the store. */
  lemma {:induction false} AddElemsGrows(sym: Tables, elems: seq<EnumElem>, tableDesc: Option<string>)
    ensures Grows(sym, AddElems(sym, elems, tableDesc))
    ensures LeafKeys(elems) <= AddElems(sym, elems, tableDesc).valuesLookup.Keys
    decreases elems
  {
    if |elems| > 0 {
      var mid := AddElem(sym, elems[0], tableDesc);
      match elems[0] {
        case Leaf(key, value, text) =>
          AddLeafGrows(sym, key, value, text, tableDesc);
        case Subgroup(items, description) =>
          AddElemsGrows(sym, items, description);
      }
      AddElemsGrows(mid, elems[1..], tableDesc);
      GrowsTransitive(sym, mid, AddElems(mid, elems[1..], tableDesc));
    }
  }

  lemma {:induction false} AddListsGrows(sym: Tables, lists: seq<ItemList>)
    ensures Grows(sym, AddLists(sym, lists))
    decreases lists
  {
    if |lists| > 0 {
      var mid := AddElems(sym, lists[0].item, None);
      AddElemsGrows(sym, lists[0].item, None);
      AddListsGrows(mid, lists[1..]);
      GrowsTransitive(sym, mid, AddLists(mid, lists[1..]));
    }
  }

  lemma AddEnumJsonGrows(sym: Tables, j: EnumJson)
    ensures Grows(sym, AddEnumJson(sym, j))
  {
    match j
    case EnumArray(lists) => AddListsGrows(sym, lists);
    case Group(items, description) => AddElemsGrows(sym, items, description);
    case Elements(elems) => AddElemsGrows(sym, elems, None);
  }

  /** Every leaf of a list of elements as the enum it becomes: a leaf carries the description
      of its directly enclosing object, `tableDesc` at the top and a subgroup's own below it. */
  function Leaves(elems: seq<EnumElem>, tableDesc: Option<string>): seq<GluaEnum>
    decreases elems
  {
    if |elems| == 0 then []
    else
      (match elems[0]
       case Leaf(key, value, text) => [GluaEnum(key, value, text, tableDesc)]
       case Subgroup(items, description) => Leaves(items, description))
      + Leaves(elems[1..], tableDesc)
  }

  /** The leaves of every shape `addEnum` accepts. */
  function JsonLeaves(j: EnumJson): seq<GluaEnum>
  {
    match j
    case EnumArray(lists) => ListsLeaves(lists)
    case Group(items, description) => Leaves(items, description)
    case Elements(elems) => Leaves(elems, None)
  }

  function ListsLeaves(lists: seq<ItemList>): seq<GluaEnum>
    decreases lists
  {
    if |lists| == 0 then [] else Leaves(lists[0].item, None) + ListsLeaves(lists[1..])
  }

  /** Every enum appended from `before` to `after` is one of the leaves, and its key is
      registered with that enum's own item. */
  predicate AppendedFrom(before: Tables, after: Tables, leaves: seq<GluaEnum>) {
    forall i :: |before.enums| <= i < |after.enums| ==>
      && after.enums[i] in leaves
      && after.enums[i].key in after.valuesLookup
      && after.valuesLookup[after.enums[i].key] == EnumItem(after.enums[i])
  }

  /** Appending in two steps appends leaves of either list, each still registered. */
  lemma AppendedFromConcat(a: Tables, b: Tables, c: Tables, l1: seq<GluaEnum>, l2: seq<GluaEnum>)
    requires AppendedFrom(a, b, l1) && AppendedFrom(b, c, l2)
    requires Grows(a, b) && Grows(b, c)
    ensures AppendedFrom(a, c, l1 + l2)
  {
    forall i | |a.enums| <= i < |c.enums|
      ensures c.enums[i] in l1 + l2
      ensures c.enums[i].key in c.valuesLookup && c.valuesLookup[c.enums[i].key] == EnumItem(c.enums[i])
    {
      if i < |b.enums| {
        assert c.enums[i] == c.enums[..|b.enums|][i] == b.enums[i];
        assert b.enums[i] in l1;
      } else {
        assert c.enums[i] in l2;
      }
    }
  }

  /** Flattening a list of elements appends only its leaves, each with its enclosing
      description and registered under its key. */
  lemma {:induction false} AddElemsAppendsLeaves(sym: Tables, elems: seq<EnumElem>, tableDesc: Option<string>)
    ensures AppendedFrom(sym, AddElems(sym, elems, tableDesc), Leaves(elems, tableDesc))
    decreases elems
  {
    if |elems| > 0 {
      var mid := AddElem(sym, elems[0], tableDesc);
      var head := match elems[0]
        case Leaf(key, value, text) => [GluaEnum(key, value, text, tableDesc)]
        case Subgroup(items, description) => Leaves(items, description);
      match elems[0] {
        case Leaf(key, value, text) =>
          AddLeafGrows(sym, key, value, text, tableDesc);
        case Subgroup(items, description) =>
          AddElemsGrows(sym, items, description);
          AddElemsAppendsLeaves(sym, items, description);
      }
      AddElemsAppendsLeaves(mid, elems[1..], tableDesc);
      AddElemsGrows(mid, elems[1..], tableDesc);
      AppendedFromConcat(sym, mid, AddElems(mid, elems[1..], tableDesc), head, Leaves(elems[1..], tableDesc));
    }
  }

  lemma {:induction false} AddListsAppendsLeaves(sym: Tables, lists: seq<ItemList>)
    ensures AppendedFrom(sym, AddLists(sym, lists), ListsLeaves(lists))
    decreases lists
  {
    if |lists| > 0 {
      var mid := AddElems(sym, lists[0].item, None);
      AddElemsAppendsLeaves(sym, lists[0].item, None);
      AddElemsGrows(sym, lists[0].item, None);
      AddListsAppendsLeaves(mid, lists[1..]);
      AddListsGrows(mid, lists[1..]);
      AppendedFromConcat(sym, mid, AddLists(mid, lists[1..]), Leaves(lists[0].item, None), ListsLeaves(lists[1..]));
    }
  }

  /** `addEnum` appends only leaves of its argument, each as a `GluaEnum` carrying the
      description of its directly enclosing object and registered under its key. */
  lemma AddEnumJsonAppendsLeaves(sym: Tables, j: EnumJson)
    ensures AppendedFrom(sym, AddEnumJson(sym, j), JsonLeaves(j))
  {
    match j
    case EnumArray(lists) => AddListsAppendsLeaves(sym, lists);
    case Group(items, description) => AddElemsAppendsLeaves(sym, items, description);
    case Elements(elems) => AddElemsAppendsLeaves(sym, elems, None);
  }

  /** A key already registered is never flattened again: a group whose leaves are all
      registered changes nothing. */
  lemma {:induction false} AddElemsRegistered(sym: Tables, elems: seq<EnumElem>, tableDesc: Option<string>)
    requires LeafKeys(elems) <= sym.valuesLookup.Keys
    ensures AddElems(sym, elems, tableDesc) == sym
    decreases elems
  {
    if |elems| > 0 {
      match elems[0] {
        case Leaf(key, value, text) =>
        case Subgroup(items, description) =>
          AddElemsRegistered(sym, items, description);
      }
      AddElemsRegistered(sym, elems[1..], tableDesc);
    }
  }

  /** `addEnum` for a group's elements, writing into the store. */
  method AddEnumElems(data: AutocompletionData, elems: seq<EnumElem>, tableDesc: Option<string>)
    modifies data`valuesLookup, data`enums
    ensures data.Symbols() == AddElems(old(data.Symbols()), elems, tableDesc)
    decreases elems, 0
  {
    for i := 0 to |elems|
      invariant AddElems(data.Symbols(), elems[i..], tableDesc) == AddElems(old(data.Symbols()), elems, tableDesc)
    {
      assert elems[i..][1..] == elems[i + 1..];
      match elems[i]
      case Subgroup(items, description) =>
        AddEnumElems(data, items, description);
      case Leaf(key, value, text) =>
        if key in data.valuesLookup {
          continue;
        }
        var e := GluaEnum(key, value, text, tableDesc);
        data.valuesLookup := data.valuesLookup[key := EnumItem(e)];
        data.enums := data.enums + [e];
    }
  }

  /** `addEnum(elem.enum)`, writing into the store. */
  method AddEnum(data: AutocompletionData, j: EnumJson)
    modifies data`valuesLookup, data`enums
    ensures data.Symbols() == AddEnumJson(old(data.Symbols()), j)
  {
    match j
    case EnumArray(lists) =>
      for i := 0 to |lists|
        invariant AddLists(data.Symbols(), lists[i..]) == AddLists(old(data.Symbols()), lists)
      {
        assert lists[i..][1..] == lists[i + 1..];
        AddEnumElems(data, lists[i].item, None);
      }
    case Group(items, description) =>
      AddEnumElems(data, items, description);
    case Elements(elems) =>
      AddEnumElems(data, elems, None);
  }

  // ---------------------------------------------------------------------------------------
  // Routing functions and ingesting the whole array

  /** Where a normalised function goes: its full name is registered, its parent joins the
      modules if absent, and by kind it is a method (also listed under its bare name), a hook
      (also registered under its bare name) or a plain function. */
  function RouteFunction(sym: Tables, f: GluaFunc): (r: Tables)
    ensures FullName(f) in r.valuesLookup && r.valuesLookup[FullName(f)] == FuncItem(f)
    ensures f.parent in r.modules && r.valuesLookup.Keys >= sym.valuesLookup.Keys
  {
    var lookup := sym.valuesLookup[FullName(f) := FuncItem(f)];
    var modules := if f.parent in sym.modules then sym.modules else sym.modules + [f.parent];
    var s := sym.(valuesLookup := lookup, modules := modules);
    if IsMethodKind(f.kind) then
      s.(classmethods := s.classmethods + [f], methodsLookup := Append(s.methodsLookup, f.name, FuncItem(f)))
    else if f.kind == "hook" then
      s.(valuesLookup := s.valuesLookup[f.name := FuncItem(f)], hooks := s.hooks + [f])
    else
      s.(functions := s.functions + [f])
  }

  /** One element of the array: the updated tables and the element as left in the data. */
  function IngestElement(sym: Tables, elem: RawElement, currentState: string): (Tables, RawElement)
  {
    if currentState !in elem.realms then (sym, elem)
    else if elem.funcField.Some? then
      var fe := elem.funcField.value;
      (RouteFunction(sym, Normalized(fe, elem.example)),
       elem.(funcField := Some(Rewritten(fe, elem.example))))
    else if elem.enumField.Some? then (AddEnumJson(sym, elem.enumField.value), elem)
    else (sym, elem)
  }

  /** The tables after ingesting the elements in order. */
  function IngestAll(sym: Tables, elems: seq<RawElement>, currentState: string): Tables
    decreases elems
  {
    if |elems| == 0 then sym
    else IngestAll(IngestElement(sym, elems[0], currentState).0, elems[1..], currentState)
  }

  /** The array as ingestion leaves it. */
  function RewrittenAll(elems: seq<RawElement>, currentState: string): (r: seq<RawElement>)
    ensures |r| == |elems|
    ensures forall i :: 0 <= i < |elems| ==> r[i] == IngestElement(EmptySymbols, elems[i], currentState).1
  {
    Map((e: RawElement) => IngestElement(EmptySymbols, e, currentState).1, elems)
  }

  /** Lines 101-118: the function is registered, its parent listed, and it is filed by kind. */
  method AddFunction(data: AutocompletionData, func: GluaFunc)
    modifies data`valuesLookup, data`modules, data`classmethods, data`methodsLookup, data`hooks, data`functions
    ensures data.Symbols() == RouteFunction(old(data.Symbols()), func)
  {
    data.valuesLookup := data.valuesLookup[FullName(func) := FuncItem(func)];
    if func.parent !in data.modules {
      data.modules := data.modules + [func.parent];
    }
    if func.kind == "classfunc" || func.kind == "panelfunc" {
      data.classmethods := data.classmethods + [func];
      if func.name in data.methodsLookup {
        data.methodsLookup := data.methodsLookup[func.name := data.methodsLookup[func.name] + [FuncItem(func)]];
      } else {
        data.methodsLookup := data.methodsLookup[func.name := [FuncItem(func)]];
      }
    } else if func.kind == "hook" {
      data.valuesLookup := data.valuesLookup[func.name := FuncItem(func)];
      data.hooks := data.hooks + [func];
    } else {
      data.functions := data.functions + [func];
    }
  }

  /** The body of the `forEach` over the array: one element ingested, and returned as it is
      left in the data. */
  method IngestOne(data: AutocompletionData, elem: RawElement, currentState: string) returns (rewritten: RawElement)
    modifies data`valuesLookup, data`modules, data`classmethods, data`methodsLookup, data`hooks, data`functions,
      data`enums
    ensures data.Symbols() == IngestElement(old(data.Symbols()), elem, currentState).0
    ensures rewritten == IngestElement(old(data.Symbols()), elem, currentState).1
  {
    rewritten := elem;
    if currentState !in elem.realms {
      return;
    }
    if elem.funcField.Some? {
      var funcElem, func := PreprocessGWikiElem(elem.funcField.value, elem.example);
      rewritten := elem.(funcField := Some(funcElem));
      AddFunction(data, func);
    } else if elem.enumField.Some? {
      AddEnum(data, elem.enumField.value);
    }
  }

  /** The post-fetch body of `LoadAutocompletionData`: every element of the array is ingested
      into the store and rewritten in place, then both completion caches are emptied. */
  method LoadAutocompletionData(data: AutocompletionData, gwikiData: seq<RawElement>, currentState: string)
    returns (rewritten: seq<RawElement>)
    modifies data
    ensures data.Symbols() == IngestAll(old(data.Symbols()), gwikiData, currentState)
    ensures rewritten == RewrittenAll(gwikiData, currentState)
    ensures data.globalCache == [] && data.methodsCache == []
  {
    rewritten := gwikiData;
    for i := 0 to |gwikiData|
      invariant IngestAll(data.Symbols(), gwikiData[i..], currentState) == IngestAll(old(data.Symbols()), gwikiData, currentState)
      invariant |rewritten| == |gwikiData|
      invariant forall k :: 0 <= k < i ==> rewritten[k] == IngestElement(EmptySymbols, gwikiData[k], currentState).1
    {
      assert gwikiData[i..][1..] == gwikiData[i + 1..];
      var elem := IngestOne(data, gwikiData[i], currentState);
      rewritten := rewritten[i := elem];
    }
    data.ClearAutocompleteCache();
  }

  // ---------------------------------------------------------------------------------------
  // Properties of ingestion

  /** Elements of other realms are skipped and left as they were. */
  lemma OtherRealmSkipped(sym: Tables, elem: RawElement, currentState: string)
    requires currentState !in elem.realms
    ensures IngestElement(sym, elem, currentState) == (sym, elem)
  {
  }

  /** Routing of one function by kind. */
  lemma RouteFunctionEffect(sym: Tables, f: GluaFunc)
    ensures RouteFunction(sym, f).valuesLookup[FullName(f)] == FuncItem(f)
    ensures var r := RouteFunction(sym, f);
      && f.parent in r.modules
      && (f.parent in sym.modules ==> r.modules == sym.modules)
      && (f.parent !in sym.modules ==> r.modules == sym.modules + [f.parent])
    ensures var r := RouteFunction(sym, f);
      IsMethodKind(f.kind) ==>
        && r.classmethods == sym.classmethods + [f]
        && r.methodsLookup[f.name] == (if f.name in sym.methodsLookup then sym.methodsLookup[f.name] else []) + [FuncItem(f)]
        && r.hooks == sym.hooks && r.functions == sym.functions
    ensures var r := RouteFunction(sym, f);
      f.kind == "hook" ==>
        && r.hooks == sym.hooks + [f] && r.valuesLookup[f.name] == FuncItem(f)
        && r.classmethods == sym.classmethods && r.functions == sym.functions && r.methodsLookup == sym.methodsLookup
    ensures var r := RouteFunction(sym, f);
      !IsMethodKind(f.kind) && f.kind != "hook" ==>
        && r.functions == sym.functions + [f] && r.valuesLookup[FullName(f)] == FuncItem(f)
        && r.classmethods == sym.classmethods && r.hooks == sym.hooks && r.methodsLookup == sym.methodsLookup
    ensures var r := RouteFunction(sym, f);
      r.interfaceValues == sym.interfaceValues && r.enums == sym.enums
  {
  }

  predicate NoDuplicates(xs: seq<string>) {
    forall i, j :: 0 <= i < j < |xs| ==> xs[i] != xs[j]
  }

  lemma RouteFunctionKeepsInvariants(sym: Tables, f: GluaFunc)
    ensures NoDuplicates(sym.modules) ==> NoDuplicates(RouteFunction(sym, f).modules)
    ensures EnumsIndexed(sym) ==> EnumsIndexed(RouteFunction(sym, f))
    ensures sym.valuesLookup.Keys <= RouteFunction(sym, f).valuesLookup.Keys
  {
  }

  /** Ingestion never lists a module twice and keeps the enum index intact. */
  lemma {:induction false} IngestKeepsInvariants(sym: Tables, elems: seq<RawElement>, currentState: string)
    ensures NoDuplicates(sym.modules) ==> NoDuplicates(IngestAll(sym, elems, currentState).modules)
    ensures EnumsIndexed(sym) ==> EnumsIndexed(IngestAll(sym, elems, currentState))
    decreases elems
  {
    if |elems| > 0 {
      var elem := elems[0];
      var mid := IngestElement(sym, elem, currentState).0;
      if currentState in elem.realms {
        if elem.funcField.Some? {
          RouteFunctionKeepsInvariants(sym, Normalized(elem.funcField.value, elem.example));
        } else if elem.enumField.Some? {
          AddEnumJsonGrows(sym, elem.enumField.value);
        }
      }
      IngestKeepsInvariants(mid, elems[1..], currentState);
    }
  }

  /** Is this element a function that ingestion lists among the plain functions? */
  predicate IsPlainFunction(elem: RawElement, currentState: string) {
    currentState in elem.realms && elem.funcField.Some?
    && !IsMethodKind(elem.funcField.value.kind) && elem.funcField.value.kind != "hook"
  }

  function PlainFunctionCount(elems: seq<RawElement>, currentState: string): nat
    decreases elems
  {
    if |elems| == 0 then 0
    else (if IsPlainFunction(elems[0], currentState) then 1 else 0) + PlainFunctionCount(elems[1..], currentState)
  }

  /** Functions are not de-duplicated: ingestion appends one plain function per matching
      element, whatever the store already holds. */
  lemma {:induction false} IngestAppendsFunctions(sym: Tables, elems: seq<RawElement>, currentState: string)
    ensures |IngestAll(sym, elems, currentState).functions| == |sym.functions| + PlainFunctionCount(elems, currentState)
    ensures IngestAll(sym, elems, currentState).functions[..|sym.functions|] == sym.functions
    decreases elems
  {
    if |elems| > 0 {
      var elem := elems[0];
      var mid := IngestElement(sym, elem, currentState).0;
      if currentState in elem.realms && elem.enumField.Some? && elem.funcField.None? {
        AddEnumJsonGrows(sym, elem.enumField.value);
      }
      assert |mid.functions| == |sym.functions| + (if IsPlainFunction(elem, currentState) then 1 else 0);
      assert mid.functions[..|sym.functions|] == sym.functions;
      IngestAppendsFunctions(mid, elems[1..], currentState);
      var r := IngestAll(mid, elems[1..], currentState);
      assert r.functions[..|sym.functions|] == r.functions[..|mid.functions|][..|sym.functions|];
    }
  }

  /** Ingesting the rewritten array finds the same plain functions again, so a second load
      lists each of them twice. */
  lemma {:induction false} ReingestDoublesFunctions(sym: Tables, elems: seq<RawElement>, currentState: string)
    ensures var once := IngestAll(sym, elems, currentState);
      var twice := IngestAll(once, RewrittenAll(elems, currentState), currentState);
      && |once.functions| == |sym.functions| + PlainFunctionCount(elems, currentState)
      && |twice.functions| == |sym.functions| + 2 * PlainFunctionCount(elems, currentState)
      && twice.functions[..|once.functions|] == once.functions
      && forall i :: |once.functions| <= i < |twice.functions| ==>
           twice.functions[i].args == [] && twice.functions[i].rets == []
  {
    IngestAppendsFunctions(sym, elems, currentState);
    var once := IngestAll(sym, elems, currentState);
    IngestAppendsFunctions(once, RewrittenAll(elems, currentState), currentState);
    RewrittenCount(elems, currentState);
    RewrittenListsBare(elems, currentState);
    IngestBareAddsNoLists(once, RewrittenAll(elems, currentState), currentState);
  }

  /** An element whose function lists an earlier pass already turned into arrays. */
  predicate ListsBare(elem: RawElement, currentState: string) {
    currentState in elem.realms && elem.funcField.Some? ==>
      elem.funcField.value.args.Bare? && elem.funcField.value.rets.Bare?
  }

  /** Ingestion leaves the lists of every function of the realm as arrays. */
  lemma RewrittenListsBare(elems: seq<RawElement>, currentState: string)
    ensures forall i :: 0 <= i < |elems| ==> ListsBare(RewrittenAll(elems, currentState)[i], currentState)
  {
    forall i | 0 <= i < |elems|
      ensures ListsBare(RewrittenAll(elems, currentState)[i], currentState)
    {
      ElementListsBare(elems[i], currentState);
    }
  }

  lemma ElementListsBare(elem: RawElement, currentState: string)
    ensures ListsBare(IngestElement(EmptySymbols, elem, currentState).1, currentState)
  {
    if currentState in elem.realms && elem.funcField.Some? {
      var fe := elem.funcField.value;
      assert IngestElement(EmptySymbols, elem, currentState).1 == elem.(funcField := Some(Rewritten(fe, elem.example)));
    }
  }

  /** As written, ingesting elements whose lists are already arrays appends functions without
      arguments or return values. */
  lemma {:induction false} IngestBareAddsNoLists(sym: Tables, elems: seq<RawElement>, currentState: string)
    requires forall i :: 0 <= i < |elems| ==> ListsBare(elems[i], currentState)
    ensures var r := IngestAll(sym, elems, currentState);
      forall i :: |sym.functions| <= i < |r.functions| ==> r.functions[i].args == [] && r.functions[i].rets == []
    decreases elems
  {
    if |elems| > 0 {
      var elem := elems[0];
      var mid := IngestElement(sym, elem, currentState).0;
      if currentState in elem.realms && elem.enumField.Some? && elem.funcField.None? {
        AddEnumJsonGrows(sym, elem.enumField.value);
      }
      assert ListsBare(elem, currentState);
      assert |mid.functions| == |sym.functions| + (if IsPlainFunction(elem, currentState) then 1 else 0);
      assert mid.functions[..|sym.functions|] == sym.functions;
      assert forall i :: |sym.functions| <= i < |mid.functions| ==>
        mid.functions[i].args == [] && mid.functions[i].rets == [];
      assert forall i :: 0 <= i < |elems[1..]| ==> ListsBare(elems[1..][i], currentState);
      IngestBareAddsNoLists(mid, elems[1..], currentState);
      IngestAppendsFunctions(mid, elems[1..], currentState);
      var r := IngestAll(mid, elems[1..], currentState);
      forall i | |sym.functions| <= i < |r.functions|
        ensures r.functions[i].args == [] && r.functions[i].rets == []
      {
        if i < |mid.functions| {
          assert r.functions[i] == r.functions[..|mid.functions|][i];
        }
      }
    }
  }

  lemma {:induction false} RewrittenCount(elems: seq<RawElement>, currentState: string)
    ensures PlainFunctionCount(RewrittenAll(elems, currentState), currentState) == PlainFunctionCount(elems, currentState)
    decreases elems
  {
    if |elems| > 0 {
      RewrittenCount(elems[1..], currentState);
      assert RewrittenAll(elems, currentState)[1..] == RewrittenAll(elems[1..], currentState);
    }
  }
}
