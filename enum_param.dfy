/**
 * The base of enumeration parameters. Its string conversion and editor
 * creation are stubs: no string form, every string refused, no editor.
 */
module EnumParam {

  /** What every parameter carries: a name, a help comment and the connector to its owner. */
  datatype ParameterBase = ParameterBase(name: string, comment: string, connector: object?)

  /** An enumeration parameter base: nothing beyond the parameter part. */
  datatype EnumParameterBase = EnumParameterBase(base: ParameterBase)

  /** Construction hands name, comment and connector to the parameter part unchanged. */
  function NewEnumParameterBase(name: string, comment: string, connector: object?): (p: EnumParameterBase)
    ensures p.base.name == name && p.base.comment == comment && p.base.connector == connector
  {
    EnumParameterBase(ParameterBase(name, comment, connector))
  }

  /** The value as a string: always empty. */
  function GetStringFromValue(p: EnumParameterBase): (s: string)
    ensures s == ""
  {
    ""
  }

  /** Setting the value from a string: refused for every string, and the parameter is unchanged. */
  function SetValueFromString(p: EnumParameterBase, s: string): (r: (bool, EnumParameterBase))
    ensures !r.0
    ensures r.1 == p
  {
    (false, p)
  }

  /** No editor widget: null. */
  function CreateEditor(p: EnumParameterBase): (editor: object?)
    ensures editor == null
  {
    null
  }

  /** The string round trip fails for the base enum parameter and leaves it as it was. */
  lemma StringRoundTripFails(p: EnumParameterBase)
    ensures !SetValueFromString(p, GetStringFromValue(p)).0
    ensures SetValueFromString(p, GetStringFromValue(p)).1 == p
  {
  }
}
