/**
 * Style property values as the map engine receives them: JSON-like values.
 * Engine expressions such as `["get", "name"]` are plain arrays of values here;
 * `Expressions.Eval` gives the forms the binder uses their meaning.
 */
module Style {

  datatype Value =
    | Str(s: string)
    | Int(i: int)
      /** A non-integral number, kept as its literal text (`1.5`, `-0.3`). */
    | Decimal(literal: string)
    | Array(elems: seq<Value>)

  /** A `layout` or `paint` object: property name to value. */
  type Props = map<string, Value>
}
