/**
 * The data side of the engine: the untyped tree that a JSON-like parser
 * produces, and the Python type tests a schema can ask of it.
 */
module Values {

  /** The Python types a bare type schema (`int`, `str`, `None`, ...) can name.
      Byte and unicode strings are not told apart, so `str` and `basestring`
      accept the same values and differ only in their names. ClassType names
      any other class (a converter's result such as a datetime). */
  datatype PyType = NoneType | BoolType | IntType | StrType | BaseStringType | ClassType(name: string)

  /** A data value. A dict is an ordered list of entries, in the order the
      Python dict iterates over its keys. Object stands for a value of a
      foreign class that a converter built (a datetime, a Decimal). */
  datatype Value =
    | Null
    | Bool(b: bool)
    | Int(i: int)
    | Str(s: string)
    | List(items: seq<Value>)
    | Dict(entries: seq<(string, Value)>)
    | Object(cls: string, text: string)

  /** `isinstance(v, t)`; a bool is also an int, as in Python. */
  predicate IsInstance(v: Value, t: PyType)
  {
    match t
    case NoneType => v.Null?
    case BoolType => v.Bool?
    case IntType => v.Int? || v.Bool?
    case StrType => v.Str?
    case BaseStringType => v.Str?
    case ClassType(name) => v.Object? && v.cls == name
  }

  /** `t.__name__`, as it appears in the type error message. */
  function TypeName(t: PyType): string
  {
    match t
    case NoneType => "NoneType"
    case BoolType => "bool"
    case IntType => "int"
    case StrType => "str"
    case BaseStringType => "basestring"
    case ClassType(name) => name
  }

  /** The key set of a dict's entries, `set(data.keys())`. */
  function KeysOf(entries: seq<(string, Value)>): (ks: set<string>)
    ensures forall i :: 0 <= i < |entries| ==> entries[i].0 in ks
    ensures forall k :: k in ks ==> exists i :: 0 <= i < |entries| && entries[i].0 == k
  {
    set i | 0 <= i < |entries| :: entries[i].0
  }
}
