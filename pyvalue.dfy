/** The dictionary-shaped values the API layer and the connection builder
    pass around, with Python's two ways of reading a key. */
module PyValue {
  import opened Common

  /** A JSON-like Python value. */
  datatype Value =
    | Null
    | Bool(b: bool)
    | Int(i: int)
    | Str(s: string)
    | List(items: seq<Value>)
    | Dict(entries: map<string, Value>)

  /** `d[key]`: raises KeyError when the key is missing. */
  function Index(d: map<string, Value>, key: string): Result<Value>
  {
    if key in d then Ok(d[key]) else Err(KeyError(key))
  }

  /** `d.get(key)`: None when the key is missing. */
  function Get(d: map<string, Value>, key: string): Value
  {
    if key in d then d[key] else Null
  }
}
