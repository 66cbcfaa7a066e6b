/** Decoded JSON documents. */
module Json {

  datatype Value =
    | Null
    | Bool(b: bool)
    | Int(n: int)
    | Float(r: real)
    | Str(s: string)
    | Arr(items: seq<Value>)
    | Obj(fields: map<string, Value>)
  {
    /** The value of a Python truth test. */
    predicate Truthy() {
      match this
      case Null => false
      case Bool(b) => b
      case Int(n) => n != 0
      case Float(r) => r != 0.0
      case Str(s) => s != ""
      case Arr(items) => items != []
      case Obj(fields) => fields != map[]
    }

    /** `isinstance(value, int)`: booleans are integers too. */
    predicate IsInt() {
      Int? || Bool?
    }

    function AsInt(): int
      requires IsInt()
    {
      if Int? then n else if b then 1 else 0
    }
  }

  /** What is false in Python. */
  lemma FalsyExactly(v: Value)
    ensures !v.Truthy() <==>
              || v == Null || v == Bool(false) || v == Int(0) || v == Float(0.0)
              || v == Str("") || v == Arr([]) || v == Obj(map[])
  {
  }

  /** `fields.get(key)`: a missing key reads as null. */
  function Get(fields: map<string, Value>, key: string): Value {
    if key in fields then fields[key] else Null
  }
}
