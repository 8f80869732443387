/** Values shared by both chat components: what a command map, a response map
    and a configuration's attribute struct may hold, the host's typed accessors
    on a configuration attribute, and the errors a handler can raise. */
module Values {

  /** One value of a command, a response or a configuration attribute.
      Numbers are whole numbers; a datetime is a reading of the host clock in
      whole seconds. */
  datatype Value =
    | Str(s: string)
    | Num(n: int)
    | Bool(b: bool)
    | Time(t: nat)
    | Null

  /** The `attributes` struct of a component configuration, by field name. */
  type Attributes = map<string, Value>

  /** `attributes.fields[key].string_value`: the string held under `key`, and
      the empty string when the field is absent or holds no string. */
  function StringValue(attrs: Attributes, key: string): string
  {
    if key in attrs && attrs[key].Str? then attrs[key].s else ""
  }

  /** `attributes.fields[key].number_value`: 0 when absent or not a number. */
  function NumberValue(attrs: Attributes, key: string): int
  {
    if key in attrs && attrs[key].Num? then attrs[key].n else 0
  }

  /** `attributes.fields[key].bool_value`: false when absent or not a bool. */
  function BoolValue(attrs: Attributes, key: string): bool
  {
    key in attrs && attrs[key].Bool? && attrs[key].b
  }

  /** The exceptions the components raise, by kind and message. */
  datatype Error =
    | InvalidRequest(message: string)
    | UnsupportedVersion(message: string)
    | KeyError(key: string)
    | TypeError(message: string)

  /** A handler's outcome: a response map, or a raised exception. */
  datatype Result<T> = Ok(value: T) | Err(error: Error)

  /** A check or a call that returns nothing unless it raises. */
  datatype Outcome = Pass | Fail(error: Error)
}
