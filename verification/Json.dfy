/** Untrusted JSON values, read the way Python's `json` and `dict.get` read them. */
module Json {

  datatype Option<+T> = None | Some(value: T)

  /** `Float` keeps only whether the number is zero: the program never looks further. */
  datatype Json =
    | Null
    | Bool(b: bool)
    | Num(n: int)
    | Float(nonZero: bool)
    | Str(s: string)
    | Arr(elements: seq<Json>)
    | Obj(fields: map<string, Json>)

  /** Python's truth value. */
  predicate Truthy(v: Json) {
    match v
    case Null => false
    case Bool(b) => b
    case Num(n) => n != 0
    case Float(nonZero) => nonZero
    case Str(s) => s != ""
    case Arr(elements) => elements != []
    case Obj(fields) => fields != map[]
  }

  /** `value.get(key)`; anything but an object has no fields. */
  function Get(v: Json, key: string): Json {
    if v.Obj? && key in v.fields then v.fields[key] else Null
  }

  function Digit(d: nat): char
    requires d < 10
  {
    "0123456789"[d]
  }

  function Decimal(n: int): string
    decreases n < 0, if n < 0 then -n else n
  {
    if n < 0 then "-" + Decimal(-n)
    else if n < 10 then [Digit(n)]
    else Decimal(n / 10) + [Digit(n % 10)]
  }
}
