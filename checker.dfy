/**
 * The recursive dispatcher `check`/`check1` as a pure interpreter over the
 * Schema datatype. Every recursive call is on a strict sub-term of the
 * schema. The four loops of the source (OR, AND, the list template and the
 * dict template) are the accumulator functions OrFrom, AndFrom, ListFrom
 * and DictFrom, which take the loop's index and accumulators as arguments.
 */
module Checker {
  import opened Values
  import opened Schemas

  /** `check(data, schema, path)`: the new value, or the one error message. */
  function Check(data: Value, schema: Schema, path: string): (r: Result)
    ensures schema.ListT? && |schema.elems| == 1 && r.Ok? ==>
      data.List? && r.value.List? && |r.value.items| == |data.items|
    ensures schema.DictT? && r.Ok? ==> data.Dict? && r.value.Dict?
    decreases schema, 1, 0
  {
    match schema
    case Or(_) => OrFrom(data, schema, path, 0, [])
    case And(_) => AndFrom(schema, path, 0, data, [])
    case Mandatory(inner) => Check(data, inner, path)
    case Re(rx, repl, count, msg) => CheckRe(data, rx, repl, count, msg, path)
    case Normalize(inner, conv) =>
      (match Check(data, inner, path)
       case Ok(v) => Ok(conv(v))
       case Err(e) => Err(e))
    case ListT(elems) =>
      if !data.List? then Err(path + " should be a list")
      else if |elems| == 0 then Ok(data)
      else if |elems| != 1 then Err("schema lists must have at most one element")
      else ListFrom(data.items, schema, path, 0, [])
    case DictT(fields) =>
      if !data.Dict? then Err(path + " should be a dict")
      else if |fields| == 0 then Ok(data)
      else DictFrom(data.entries, schema, path, 0, KeySetErrors(KeysOf(data.entries), fields, path), [])
    case Lit(lit) => CheckLiteral(data, lit, path)
    case TypeT(t) => CheckType(data, t, path)
  }

  /** The OR loop from alternative `i` on, with the messages of the
      alternatives before `i` (all of which failed) in `errors`. */
  function OrFrom(data: Value, s: Schema, path: string, i: nat, errors: seq<string>): (r: Result)
    requires s.Or? && i <= |s.alts|
    ensures errors != [] && r.Err? ==> Join(errors, " or ") <= r.msg
    decreases s, 0, |s.alts| - i
  {
    if i == |s.alts| then
      if errors != [] then Err(Join(errors, " or ")) else Ok(data)
    else
      match Check(data, s.alts[i], path)
      case Ok(v) => Ok(v)
      case Err(e) =>
        JoinKeepsPrefix(errors, [e], " or ");
        OrFrom(data, s, path, i + 1, errors + [e])
  }

  /** The AND loop from step `i` on: `carried` is the value after the last
      successful step, `errors` the messages of the failed ones. */
  function AndFrom(s: Schema, path: string, i: nat, carried: Value, errors: seq<string>): (r: Result)
    requires s.And? && i <= |s.steps|
    ensures errors != [] ==> r.Err? && Join(errors, " and ") <= r.msg
    decreases s, 0, |s.steps| - i
  {
    if i == |s.steps| then
      if errors != [] then Err(Join(errors, " and ")) else Ok(carried)
    else
      match Check(carried, s.steps[i], path)
      case Ok(v) => AndFrom(s, path, i + 1, v, errors)
      case Err(e) =>
        JoinKeepsPrefix(errors, [e], " and ");
        AndFrom(s, path, i + 1, carried, errors + [e])
  }

  /** The list-template loop from element `i` on, with the checked elements
      before `i` in `done`; the first failing element ends it. */
  function ListFrom(items: seq<Value>, s: Schema, path: string, i: nat, done: seq<Value>): (r: Result)
    requires s.ListT? && |s.elems| == 1 && i <= |items|
    ensures r.Ok? ==> r.value.List? && done <= r.value.items && |r.value.items| == |done| + |items| - i
    decreases s, 0, |items| - i
  {
    if i == |items| then Ok(List(done))
    else
      match Check(items[i], s.elems[0], IndexPath(path, i))
      case Ok(v) => ListFrom(items, s, path, i + 1, done + [v])
      case Err(e) => Err(e)
  }

  /** The dict-template loop from entry `i` on: `errors` collects the
      key-set and per-key messages, `done` the checked entries. Keys the
      template does not know are skipped here; KeySetErrors reported them. */
  function DictFrom(entries: seq<(string, Value)>, s: Schema, path: string, i: nat,
                    errors: seq<string>, done: seq<(string, Value)>): (r: Result)
    requires s.DictT? && i <= |entries|
    ensures errors != [] ==> r.Err? && Join(errors, " and ") <= r.msg
    ensures r.Ok? ==> r.value.Dict? && done <= r.value.entries && |r.value.entries| <= |done| + |entries| - i
    decreases s, 0, |entries| - i
  {
    if i == |entries| then
      if errors != [] then Err(Join(errors, " and ")) else Ok(Dict(done))
    else
      var (k, v) := entries[i];
      if k in s.fields then
        match Check(v, s.fields[k], KeyPath(path, k))
        case Ok(w) => DictFrom(entries, s, path, i + 1, errors, done + [(k, w)])
        case Err(e) =>
          JoinKeepsPrefix(errors, [e], " and ");
          DictFrom(entries, s, path, i + 1, errors + [e], done)
      else DictFrom(entries, s, path, i + 1, errors, done)
  }

  /** The message for data keys the template does not declare. */
  function SubsetMessage(path: string): string
  {
    path + " keys are not a subset of the template keys"
  }

  /** The message for a missing mandatory key. */
  function SupersetMessage(path: string): string
  {
    path + " keys are not a superset of the mandatory keys"
  }

  /** The key-set checks of a non-empty dict template: the data's keys must
      be among the template's, and every mandatory key must be present. */
  function KeySetErrors(keys: set<string>, fields: map<string, Schema>, path: string): (errors: seq<string>)
    ensures errors == [] <==> keys <= fields.Keys && MandatoryKeys(fields) <= keys
    ensures !(keys <= fields.Keys) ==> errors[0] == SubsetMessage(path)
    ensures keys <= fields.Keys && !(MandatoryKeys(fields) <= keys) ==> errors == [SupersetMessage(path)]
  {
    (if keys <= fields.Keys then [] else [SubsetMessage(path)])
    + (if MandatoryKeys(fields) <= keys then [] else [SupersetMessage(path)])
  }

  /** A string schema: the data must be that very string. */
  function CheckLiteral(data: Value, lit: string, path: string): (r: Result)
    ensures r.Ok? <==> data == Str(lit)
    ensures r.Ok? ==> r.value == data
  {
    if data == Str(lit) then Ok(data) else Err(path + " value should be " + lit)
  }

  /** A type schema: the data must be an instance; it is returned as it is. */
  function CheckType(data: Value, t: PyType, path: string): (r: Result)
    ensures r.Ok? <==> IsInstance(data, t)
    ensures r.Ok? ==> r.value == data
  {
    if IsInstance(data, t) then Ok(data)
    else Err(path + " should be of type \"" + TypeName(t) + "\"")
  }

  /** The first 100 characters of a string, `data[:100]`. */
  function Preview(s: string): (p: string)
    ensures |p| <= 100 && p <= s
    ensures |s| <= 100 ==> p == s
    ensures |s| > 100 ==> |p| == 100
  {
    if |s| <= 100 then s else s[..100]
  }

  /** The message of a string the pattern does not match: the path, the
      string's first 100 characters, then `msg`, or the pattern when `msg` is
      empty. */
  function NoMatchMessage(path: string, text: string, source: string, msg: string): (m: string)
    ensures EndsWith(m, if msg != "" then msg else "does not match /" + source + "/")
  {
    var reason := if msg != "" then msg else "does not match /" + source + "/";
    var head := path + "(==\"" + Preview(text) + "\") ";
    assert (head + reason)[|head + reason| - |reason|..] == reason;
    head + reason
  }

  /** `RE(...)`: the data must be a string the pattern matches at its start;
      with a replacement the substituted string is returned, otherwise the data. */
  function CheckRe(data: Value, rx: Regex, repl: string, count: nat, msg: string, path: string): (r: Result)
    ensures r.Ok? <==> data.Str? && rx.matchesAtStart(data.s)
    ensures r.Ok? && repl == "" ==> r.value == data
    ensures r.Ok? && repl != "" ==> r.value == Str(rx.sub(repl, data.s, count))
    ensures !data.Str? ==> r == Err(path + " should be a basestring")
    ensures data.Str? && !rx.matchesAtStart(data.s) ==> r == Err(NoMatchMessage(path, data.s, rx.source, msg))
  {
    if !data.Str? then Err(path + " should be a basestring")
    else if !rx.matchesAtStart(data.s) then Err(NoMatchMessage(path, data.s, rx.source, msg))
    else if repl != "" then Ok(Str(rx.sub(repl, data.s, count)))
    else Ok(data)
  }
}
