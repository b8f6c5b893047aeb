/** Values as the plugins see them after JSON decoding: a field may be missing,
    explicitly null, or carry a value (ids arrive as strings or as numbers and
    are compared after `String(...)`, so they are kept here as their text). */
module JsValues {

  datatype Option<+T> = None | Some(value: T)

  /** A JSON field: absent (`undefined`), `null`, or a value rendered as text. */
  datatype Field = Absent | Null | Str(s: string)

  /** Outcome of a handler: `Fault` stands for the TypeError the source throws
      when it dereferences `undefined`; the model leaves the state unchanged then. */
  datatype Status = Done | Fault

  /** JavaScript's `a ?? b`: `b` when `a` is null or undefined. */
  function Coalesce(a: Field, b: Field): Field {
    if a.Str? then a else b
  }

  /** JavaScript's `String(f)`. */
  function JsString(f: Field): string {
    match f
    case Absent => "undefined"
    case Null => "null"
    case Str(s) => s
  }

  /** Truthiness of a field holding an id: only a non-empty text is truthy. */
  predicate Truthy(f: Field) {
    f.Str? && f.s != ""
  }

  /** Truthiness of an optional id (`null` and `""` are falsy). */
  predicate TruthyId(o: Option<string>) {
    o.Some? && o.value != ""
  }

  /** `String(o)` for an optional id: `null` prints as "null". */
  function IdString(o: Option<string>): string {
    if o.Some? then o.value else "null"
  }
}
