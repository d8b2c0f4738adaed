/** The JavaScript values the legacy CasperJS interpreter handles: the
    configuration object, the command-line options and the parsed JSON
    file. A property that is absent reads as `undefined`, written here as
    `None`. */
module JsValues {
  import opened Wrappers
  import opened PyText

  /** A JSON value. Arrays and fractional numbers are not modelled. */
  datatype Value =
    | Null
    | Bool(b: bool)
    | Num(n: int)
    | Str(s: string)
    | Object(fields: map<string, Value>)

  /** The names every plain object inherits from `Object.prototype`
      (section 15.2.4 of ECMA-262, 5.1 edition): reading one of them from
      an object that does not have it as its own property gives a function,
      not `undefined`. */
  predicate IsPrototypeMember(key: string) {
    || key == "constructor" || key == "toString" || key == "toLocaleString" || key == "valueOf"
    || key == "hasOwnProperty" || key == "isPrototypeOf" || key == "propertyIsEnumerable"
  }

  /** `o[key]` for a value that is not null: an own property of an object,
      or `undefined`. (No primitive has a property a caller here reads.) */
  function Get(v: Value, key: string): (r: Option<Value>)
    ensures r.Some? <==> v.Object? && key in v.fields
  {
    if v.Object? && key in v.fields then Some(v.fields[key]) else None
  }

  /** What `'' + v` gives: the string conversion of a value, with
      `undefined` for an absent property. */
  function Text(v: Option<Value>): string {
    match v
    case None => "undefined"
    case Some(Null) => "null"
    case Some(Bool(b)) => if b then "true" else "false"
    case Some(Num(n)) => IntToString(n)
    case Some(Str(s)) => s
    case Some(Object(_)) => "[object Object]"
  }
}
