/** Python values as they appear in the dictionaries the core passes around (JSON records,
    processed documents). */
module Values {
  import opened Wrappers
  import opened Dates

  datatype Value = Null | Bool(b: bool) | Number(n: real) | Str(s: string) | List(items: seq<Value>)
                 | DateVal(date: Date)

  /** A Python dictionary with string keys. */
  type Dict = map<string, Value>

  /** Python truthiness. */
  predicate Truthy(v: Value) {
    match v
    case Null => false
    case Bool(b) => b
    case Number(n) => n != 0.0
    case Str(s) => s != []
    case List(items) => items != []
    case DateVal(_) => true
  }

  /** `d.get(key, default)` */
  function Lookup(d: map<string, Value>, key: string, default: Value): (v: Value)
    ensures key in d ==> v == d[key]
    ensures key !in d ==> v == default
  {
    if key in d then d[key] else default
  }

  /** An optional float stored in a dictionary. */
  function OfOption(o: Option<real>): (v: Value)
    ensures v == Null <==> o.None?
  {
    match o
    case None => Null
    case Some(x) => Number(x)
  }
}
