/** JSON values as section 3 of RFC 8259 defines them (null, booleans, numbers,
    strings, arrays and objects), the JavaScript notions the client applies to
    them (truthiness, `"key" in value`), and the shape of what `JSON.parse`
    and other library calls can throw. */
module JsonData {
  import opened Wrappers

  datatype Json =
    | Null
    | Bool(b: bool)
    | Num(n: real)
    | Str(str: string)
    | Arr(items: seq<Json>)
    | Obj(fields: map<string, Json>)

  /** JavaScript truthiness: `null`, `false`, `0` and `""` are falsy; every
      array and object, even an empty one, is truthy. */
  predicate Truthy(v: Json) {
    match v
    case Null => false
    case Bool(b) => b
    case Num(n) => n != 0.0
    case Str(s) => s != ""
    case Arr(_) => true
    case Obj(_) => true
  }

  /** `typeof v === "object" && v !== null && !Array.isArray(v) && key in v` */
  predicate HasKey(v: Json, key: string) {
    v.Obj? && key in v.fields
  }

  /** A value raised by `throw`: an `Error` instance with its message, or anything else. */
  datatype Thrown = ErrorInstance(message: string) | NonError

  /** The outcome of `JSON.parse` on one input text. */
  datatype ParseResult = Parsed(value: Json) | Threw(thrown: Thrown)
}
