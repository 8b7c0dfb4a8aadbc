/** Python's dynamically typed metadata values and LangChain's `Document`. */
module PyValues {
  import opened PyText

  /** A value held in a metadata dict. */
  datatype Value =
    | Str(s: string)
    | Int(i: int)
    | Float(f: real)
    | NoneValue
    | Dict(entries: map<string, Value>)

  type Metadata = map<string, Value>

  /** Python truthiness of a metadata value. */
  predicate Truthy(v: Value) {
    match v
    case Str(s) => |s| > 0
    case Int(i) => i != 0
    case Float(f) => f != 0.0
    case NoneValue => false
    case Dict(d) => |d| > 0
  }

  /** `m.get(key, default)`. */
  function Get(m: Metadata, key: string, default: Value): (v: Value)
    ensures key in m ==> v == m[key]
    ensures key !in m ==> v == default
  {
    if key in m then m[key] else default
  }

  /** `str(v)`: a string is itself; any other value is rendered by Python's `str`,
      which is an external collaborator here (`render`). */
  function ToStr(v: Value, render: Value -> string): (r: string)
    ensures v.Str? ==> r == v.s
  {
    if v.Str? then v.s else render(v)
  }

  /** LangChain's `Document`: page content plus a metadata dict. */
  datatype Document = Document(pageContent: string, metadata: Metadata)

  /** A raised Python exception: an ordinary exception with its `str()` message, or
      FastAPI's `HTTPException` with its status code and detail. */
  datatype PyError =
    | Raised(kind: string, message: string)
    | HttpError(status: nat, detail: string)
  {
    /** `str(e)`; an `HTTPException` prints as "<status>: <detail>". */
    function Str(): (r: string)
      ensures Raised? ==> r == message
      ensures HttpError? ==> StartsWith(r, NatToString(status) + ": ")
    {
      match this
      case Raised(_, m) => m
      case HttpError(code, d) => NatToString(code) + ": " + d
    }
  }
}
