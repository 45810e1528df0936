/**
 * The schema side: the shapes a Python schema value can take, recognised
 * by the dispatcher in the order callable, list, dict, string, type.
 */
module Schemas {
  import opened Values

  /** A compiled regular expression. Only what the engine asks of it is
      kept: whether `pattern.match` succeeds (a match anchored at the start
      of the string) and `pattern.sub(repl, s, count=count)`. */
  datatype Regex = Regex(
    source: string,
    matchesAtStart: string -> bool,
    sub: (string, string, nat) -> string)

  datatype Schema =
    /** `OR(*alts)`: the first alternative that accepts the data wins. */
    | Or(alts: seq<Schema>)
    /** `AND(*steps)`: every step, each on the value the previous ones produced. */
    | And(steps: seq<Schema>)
    /** `MANDATORY(inner)`: validates like `inner`, marks a dict key as required. */
    | Mandatory(inner: Schema)
    /** `RE(regexp, repl, count, msg=msg)`; an empty `repl` or `msg` is Python's falsy default. */
    | Re(rx: Regex, repl: string, count: nat, msg: string)
    /** `NORMALIZE(inner, converter)`. */
    | Normalize(inner: Schema, conv: Value -> Value)
    /** A list used as a template: `[]` or `[element]` (more is a schema error). */
    | ListT(elems: seq<Schema>)
    /** A dict used as a template, from key to the schema of its value. */
    | DictT(fields: map<string, Schema>)
    /** A string used as a literal. */
    | Lit(lit: string)
    /** A type (or a non-string scalar instance, which stands for its type). */
    | TypeT(t: PyType)

  /** `ANY = OR()`. */
  const Any: Schema := Or([])

  /** The keys of a dict template whose schema is directly a MANDATORY wrapper. */
  function MandatoryKeys(fields: map<string, Schema>): (ks: set<string>)
    ensures ks <= fields.Keys
    ensures forall k :: k in fields ==> (k in ks <==> fields[k].Mandatory?)
  {
    set k | k in fields && fields[k].Mandatory?
  }

  /** The single error channel: a validated value or one ValueError message. */
  datatype Result = Ok(value: Value) | Err(msg: string)

  /** `suffix` is how `s` ends. */
  predicate EndsWith(s: string, suffix: string)
  {
    |suffix| <= |s| && s[|s| - |suffix|..] == suffix
  }

  /** `sep.join(parts)`: the joined string starts with the first part and
      ends with the last. */
  function Join(parts: seq<string>, sep: string): (r: string)
    ensures parts != [] ==> parts[0] <= r
    ensures parts != [] ==> EndsWith(r, parts[|parts| - 1])
  {
    if |parts| == 0 then ""
    else if |parts| == 1 then parts[0]
    else
      var tail := Join(parts[1..], sep);
      assert EndsWith(parts[0] + sep + tail, parts[|parts| - 1]) by {
        var last := parts[|parts| - 1];
        var whole := parts[0] + sep + tail;
        assert parts[1..][|parts| - 2] == last;
        assert whole[|whole| - |last|..] == tail[|tail| - |last|..];
      }
      parts[0] + sep + tail
  }

  /** Joining more parts keeps what the first ones joined to as a prefix. */
  lemma {:induction false} JoinKeepsPrefix(parts: seq<string>, more: seq<string>, sep: string)
    ensures Join(parts, sep) <= Join(parts + more, sep)
    decreases |parts|
  {
    if |parts| == 0 {
    } else if |parts| == 1 {
      if more != [] {
        assert (parts + more)[1..] == more;
      }
    } else {
      assert (parts + more)[1..] == parts[1..] + more;
      JoinKeepsPrefix(parts[1..], more, sep);
    }
  }

  /** The decimal digits of `n`, as `'%s' % n` writes them. */
  function NatToString(n: nat): (s: string)
    ensures |s| > 0
    decreases n
  {
    var digit := ["0", "1", "2", "3", "4", "5", "6", "7", "8", "9"][n % 10];
    if n < 10 then digit else NatToString(n / 10) + digit
  }

  /** The path of the i-th element of a list: `path + '[%s]' % i`. */
  function IndexPath(path: string, i: nat): string
  {
    path + "[" + NatToString(i) + "]"
  }

  /** The path of the value at a dict key: `path + '{%s}' % key`. */
  function KeyPath(path: string, key: string): string
  {
    path + "{" + key + "}"
  }
}
