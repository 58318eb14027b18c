/**
  A value the running game reports to the editor (a global, a library function or an object
  method): its full name, its bare name, whether it is called with `:`, its optional
  completion kind and description.
 */
module InterfaceValues {
  import opened Wrappers
  import opened Text

  /** `GmodInterfaceValue`: `kind` is the optional `type` field. */
  datatype GmodInterfaceValue = GmodInterfaceValue(
    fullname: string,
    name: string,
    classFunction: bool,
    kind: Option<string>,
    description: Option<string>)

  /** The record the constructor copies its fields from. */
  datatype ValueRecord = ValueRecord(
    name: string,
    fullname: string,
    classFunction: bool,
    kind: Option<string>,
    description: Option<string>)

  /** The constructor. Its guard reads the free identifier `name` (the page's global), not the
      record's name, so whether it fires is the parameter `globalNameEmpty`. When it fires, a
      method's bare name is the text after its last `:` and any other value's is its full name. */
  function New(rec: ValueRecord, globalNameEmpty: bool): (v: GmodInterfaceValue)
    ensures v.fullname == rec.fullname && v.classFunction == rec.classFunction
    ensures v.kind == rec.kind && v.description == rec.description
    ensures !globalNameEmpty ==> v.name == rec.name
    ensures globalNameEmpty && !rec.classFunction ==> v.name == rec.fullname
    ensures globalNameEmpty && rec.classFunction ==>
      ':' !in v.name && |v.name| <= |rec.fullname|
      && rec.fullname[|rec.fullname| - |v.name|..] == v.name
      && (':' in rec.fullname ==> rec.fullname == BeforeLast(rec.fullname, ':') + ":" + v.name)
      && (':' !in rec.fullname ==> v.name == rec.fullname)
  {
    var name :=
      if !globalNameEmpty then rec.name
      else if rec.classFunction then LastSegment(rec.fullname, ':')
      else rec.fullname;
    if globalNameEmpty && rec.classFunction then
      if ':' in rec.fullname then
        SplitAtLast(rec.fullname, ':');
        GmodInterfaceValue(rec.fullname, name, rec.classFunction, rec.kind, rec.description)
      else
        LastSegmentWithout(rec.fullname, ':');
        GmodInterfaceValue(rec.fullname, name, rec.classFunction, rec.kind, rec.description)
    else
      GmodInterfaceValue(rec.fullname, name, rec.classFunction, rec.kind, rec.description)
  }

  /** `getUsage()`: a call for the `Function` and `Method` kinds (the bare name for a method),
      the full name for any other or no kind. */
  function Usage(v: GmodInterfaceValue): (r: string)
    ensures (v.kind == Some("Function") || v.kind == Some("Method")) && v.classFunction ==>
      r == v.name + "()"
    ensures (v.kind == Some("Function") || v.kind == Some("Method")) && !v.classFunction ==>
      r == v.fullname + "()"
    ensures !(v.kind == Some("Function") || v.kind == Some("Method")) ==> r == v.fullname
  {
    if v.kind == Some("Function") || v.kind == Some("Method") then
      (if v.classFunction then v.name else v.fullname) + "()"
    else v.fullname
  }

  /** `generateDocumentation()`: the description alone when it is truthy, nothing otherwise. */
  function Documentation(v: GmodInterfaceValue): (r: seq<string>)
    ensures |r| <= 1
    ensures |r| == 1 <==> Truthy(v.description)
    ensures |r| == 1 ==> r[0] == v.description.value
  {
    if Truthy(v.description) then [v.description.value] else []
  }
}
