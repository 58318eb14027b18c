/**
  An enumeration constant of the game's Lua API: its key, its value as the wiki renders it,
  its own description and the description of the enumeration group that encloses it.
 */
module Enums {
  import opened Wrappers

  /** `GluaEnum`: `value` is the value as a template string renders it. */
  datatype GluaEnum = GluaEnum(key: string, value: string, text: Option<string>, tableDesc: Option<string>)

  /** `generateDocumentation()`: exactly three entries: the value in backticks, the enum's own text
      and the group's text, where a missing or empty text reads "No description", so no entry is
      ever empty. */
  function Documentation(e: GluaEnum): (r: seq<string>)
    ensures |r| == 3
    ensures r[0] == "Value: `" + e.value + "`"
    ensures r[1] == (if Truthy(e.text) then e.text.value else "No description")
    ensures r[2] == (if Truthy(e.tableDesc) then e.tableDesc.value else "No description")
    ensures forall i :: 0 <= i < 3 ==> r[i] != ""
  {
    ["Value: `" + e.value + "`",
     OrElse(e.text, "No description"),
     OrElse(e.tableDesc, "No description")]
  }

  /** `getDetail()`: it repeats the documentation's group entry after a blank line, preceded by the
      enum's own text when it has one and by nothing otherwise. */
  function Detail(e: GluaEnum): (r: string)
    ensures Truthy(e.text) ==> r == Documentation(e)[1] + "\n\n" + Documentation(e)[2]
    ensures !Truthy(e.text) ==> r == "\n\n" + Documentation(e)[2]
  {
    OrElse(e.text, "") + "\n\n" + OrElse(e.tableDesc, "No description")
  }
}
