/**
 * The engine as the source runs it: `check` dispatching on the schema, and
 * the four loops that fill an error list or a result list step by step.
 * Each method is proved to compute exactly what the interpreter in module
 * Checker says.
 */
module Engine {
  import opened Values
  import opened Schemas
  import opened Checker

  /** `check(data, schema, path)`. */
  method Validate(data: Value, schema: Schema, path: string) returns (r: Result)
    ensures r == Check(data, schema, path)
    decreases schema, 1, 0
  {
    match schema {
      case Or(_) =>
        r := ValidateOr(data, schema, path);
      case And(_) =>
        r := ValidateAnd(data, schema, path);
      case Mandatory(inner) =>
        r := Validate(data, inner, path);
      case Re(rx, repl, count, msg) =>
        r := CheckRe(data, rx, repl, count, msg, path);
      case Normalize(inner, conv) =>
        var checked := Validate(data, inner, path);
        if checked.Ok? {
          r := Ok(conv(checked.value));
        } else {
          r := checked;
        }
      case ListT(elems) =>
        if !data.List? {
          r := Err(path + " should be a list");
        } else if |elems| == 0 {
          r := Ok(data);
        } else if |elems| != 1 {
          r := Err("schema lists must have at most one element");
        } else {
          r := ValidateList(data.items, schema, path);
        }
      case DictT(fields) =>
        if !data.Dict? {
          r := Err(path + " should be a dict");
        } else if |fields| == 0 {
          r := Ok(data);
        } else {
          r := ValidateDict(data.entries, schema, path);
        }
      case Lit(lit) =>
        r := CheckLiteral(data, lit, path);
      case TypeT(t) =>
        r := CheckType(data, t, path);
    }
  }

  /** The function built by `OR(*alts)`: tries each alternative on the
      original data and returns the first success. */
  method ValidateOr(data: Value, s: Schema, path: string) returns (r: Result)
    requires s.Or?
    ensures r == Check(data, s, path)
    decreases s, 0, 0
  {
    var errors: seq<string> := [];
    var i := 0;
    while i < |s.alts|
      invariant i <= |s.alts|
      invariant OrFrom(data, s, path, i, errors) == Check(data, s, path)
    {
      var attempt := Validate(data, s.alts[i], path);
      if attempt.Ok? {
        return attempt;
      }
      errors := errors + [attempt.msg];
      i := i + 1;
    }
    if errors != [] {
      return Err(Join(errors, " or "));
    }
    return Ok(data);
  }

  /** The function built by `AND(*steps)`: runs every step on the value the
      last successful step produced and keeps going after a failure. */
  method ValidateAnd(data: Value, s: Schema, path: string) returns (r: Result)
    requires s.And?
    ensures r == Check(data, s, path)
    decreases s, 0, 0
  {
    var carried := data;
    var errors: seq<string> := [];
    var i := 0;
    while i < |s.steps|
      invariant i <= |s.steps|
      invariant AndFrom(s, path, i, carried, errors) == Check(data, s, path)
    {
      var step := Validate(carried, s.steps[i], path);
      if step.Ok? {
        carried := step.value;
      } else {
        errors := errors + [step.msg];
      }
      i := i + 1;
    }
    if errors != [] {
      return Err(Join(errors, " and "));
    }
    return Ok(carried);
  }

  /** The list branch of `check1` for a one-element template: builds the new
      list element by element; the first failure propagates. */
  method ValidateList(items: seq<Value>, s: Schema, path: string) returns (r: Result)
    requires s.ListT? && |s.elems| == 1
    ensures r == ListFrom(items, s, path, 0, [])
    decreases s, 0, 0
  {
    var checked: seq<Value> := [];
    var i := 0;
    while i < |items|
      invariant i <= |items|
      invariant ListFrom(items, s, path, i, checked) == ListFrom(items, s, path, 0, [])
    {
      var elem := Validate(items[i], s.elems[0], IndexPath(path, i));
      if elem.Err? {
        return elem;
      }
      checked := checked + [elem.value];
      i := i + 1;
    }
    return Ok(List(checked));
  }

  /** The dict branch of `check1` for a non-empty template: the key-set
      checks, then every entry whose key the template knows; all messages
      are collected and joined. */
  method ValidateDict(entries: seq<(string, Value)>, s: Schema, path: string) returns (r: Result)
    requires s.DictT?
    ensures r == DictFrom(entries, s, path, 0, KeySetErrors(KeysOf(entries), s.fields, path), [])
    decreases s, 0, 0
  {
    var errors := KeySetErrors(KeysOf(entries), s.fields, path);
    var checked: seq<(string, Value)> := [];
    var i := 0;
    while i < |entries|
      invariant i <= |entries|
      invariant DictFrom(entries, s, path, i, errors, checked)
             == DictFrom(entries, s, path, 0, KeySetErrors(KeysOf(entries), s.fields, path), [])
    {
      var (key, value) := entries[i];
      if key in s.fields {
        var entry := Validate(value, s.fields[key], KeyPath(path, key));
        if entry.Ok? {
          checked := checked + [(key, entry.value)];
        } else {
          errors := errors + [entry.msg];
        }
      }
      i := i + 1;
    }
    if errors != [] {
      return Err(Join(errors, " and "));
    }
    return Ok(Dict(checked));
  }
}
