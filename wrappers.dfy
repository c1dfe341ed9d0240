/** Optional values: Python's `None` and the SQL NULL of an optional column. */
module Wrappers {

  datatype Option<+T> = None | Some(value: T)

  /** Python truthiness of an optional string: `None` and `""` are both false. */
  predicate TruthyString(s: Option<string>) {
    s.Some? && s.value != ""
  }

  /** Python truthiness of an optional integer query parameter: `None` and `0` are both false. */
  predicate TruthyInt(n: Option<int>) {
    n.Some? && n.value != 0
  }
}
