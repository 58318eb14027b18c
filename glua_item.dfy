/**
  Everything the symbol tables can hold under a name: a documented function, an enumeration
  constant or a value reported by the game; each renders its own hover documentation.
 */
module Items {
  import Funcs
  import Enums
  import InterfaceValues

  datatype GluaItem =
    | FuncItem(func: Funcs.GluaFunc)
    | EnumItem(enumValue: Enums.GluaEnum)
    | ValueItem(value: InterfaceValues.GmodInterfaceValue)

  /** `generateDocumentation()`, dispatched on the kind of item. */
  function Documentation(item: GluaItem): seq<string>
  {
    match item
    case FuncItem(f) => Funcs.Documentation(f)
    case EnumItem(e) => Enums.Documentation(e)
    case ValueItem(v) => InterfaceValues.Documentation(v)
  }
}
