/**
 * The JSON values that hosts, groups and transforms carry (`Data`, `Extras`, `Defaults`,
 * `TransformFunctionOptions`). Only the accessors the transform reads are given meaning:
 * member lookup, "as object" and "as string". Numbers are integers here.
 */
module Json {
  import opened Wrappers

  datatype Value =
    | Null
    | Bool(b: bool)
    | Number(n: int)
    | String(str: string)
    | Array(items: seq<Value>)
    | Object(fields: map<string, Value>)
  {
    /** Member lookup: a value only when this is an object holding `key`. */
    function Get(key: string): Option<Value> {
      if Object? && key in fields then Some(fields[key]) else None
    }

    function AsObject(): Option<map<string, Value>> {
      if Object? then Some(fields) else None
    }

    function AsStr(): Option<string> {
      if String? then Some(str) else None
    }
  }
}
