/** JSON values as the services see them after parsing: object keys are unique and
    unordered, and integers and floats are different numbers. */
module Json {
  import opened Wrappers

  datatype Json =
    | Null
    | Bool(b: bool)
    | Int(n: int)
    | Float(r: real)
    | Str(s: string)
    | Arr(items: seq<Json>)
    | Obj(fields: map<string, Json>)
  {
    function Get(key: string): Option<Json> {
      if Obj? && key in fields then Some(fields[key]) else None
    }

    function GetStr(key: string): Option<string> {
      if Obj? && key in fields && fields[key].Str? then Some(fields[key].s) else None
    }

    predicate HasU64(key: string) {
      Obj? && key in fields && fields[key].Int? && 0 <= fields[key].n <= U64_MAX
    }
  }
}
