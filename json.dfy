/**
 * The loosely typed values that cross the crawler backend (Python dicts and
 * lists) and the browser (parsed JSON), with the truth tests and lookups the
 * two languages apply to them.
 */
module Json {
  datatype Value =
    | Null
    | Bool(b: bool)
    | Num(n: int)
    | Str(s: string)
    | Arr(elems: seq<Value>)
    | Obj(fields: map<string, Value>)

  /** Python's truth test: None, False, 0, "", [] and {} are false. */
  predicate PyTruthy(v: Value) {
    match v
    case Null => false
    case Bool(b) => b
    case Num(n) => n != 0
    case Str(s) => s != ""
    case Arr(e) => e != []
    case Obj(f) => f != map[]
  }

  /** JavaScript's truth test: null/undefined, false, 0 and "" are false; every array and object is true. */
  predicate JsTruthy(v: Value) {
    match v
    case Null => false
    case Bool(b) => b
    case Num(n) => n != 0
    case Str(s) => s != ""
    case Arr(_) => true
    case Obj(_) => true
  }

  /** Python's `a or b`: the first operand when it is truthy, otherwise the second. */
  function PyOr(a: Value, b: Value): (r: Value)
    ensures r == a || r == b
    ensures PyTruthy(r) <==> PyTruthy(a) || PyTruthy(b)
    ensures PyTruthy(a) ==> r == a
  {
    if PyTruthy(a) then a else b
  }

  /** Python's `d.get(key)`: None when the key is absent. */
  function Get(d: map<string, Value>, key: string): (v: Value)
    ensures key !in d ==> v == Null
    ensures key in d ==> v == d[key]
  {
    if key in d then d[key] else Null
  }

  /** The two truth tests agree on every value except the empty list and the empty dict. */
  lemma TruthAgrees(v: Value)
    ensures PyTruthy(v) != JsTruthy(v) <==> v == Arr([]) || v == Obj(map[])
  {
  }
}
