/**
 * The validators the library builds once and exports: the ISO 8601 and
 * base64 pattern checks, and the normalizers built on them or on
 * `basestring`. Regular-expression matching, the date parser, the decimal
 * constructor and the string methods are outside the engine, so each is a
 * parameter here.
 */
module Prebuilt {
  import opened Values
  import opened Schemas
  import opened Checker

  const Iso8601DatetimePattern: string := "^\\d+-\\d+-\\d+T\\d+:\\d+:\\d+(?:\\.\\d+)?(?:Z|\\d+:\\d+)?$"
  const Iso8601DatePattern: string := "^\\d+-\\d+-\\d+$"
  const Iso8601TimePattern: string := "\\d+:\\d+:\\d+(?:\\.\\d+)?$"
  const Base64Pattern: string := "^(?:[A-Za-z0-9+/]{4})*(?:[A-Za-z0-9+/]{2}==|[A-Za-z0-9+/]{3}=)?$"

  /** `RE(pattern, msg=msg)` with no replacement, given what `pattern.match` decides. */
  function PatternCheck(pattern: string, matches: string -> bool, msg: string): (s: Schema)
    ensures s.Re? && s.rx.source == pattern && s.repl == "" && s.msg == msg
  {
    Re(Regex(pattern, matches, (repl, text, count) => text), "", 0, msg)
  }

  function Iso8601Datetime(matches: string -> bool): Schema { PatternCheck(Iso8601DatetimePattern, matches, "") }
  function Iso8601Date(matches: string -> bool): Schema { PatternCheck(Iso8601DatePattern, matches, "") }
  function Iso8601Time(matches: string -> bool): Schema { PatternCheck(Iso8601TimePattern, matches, "") }
  function Base64(matches: string -> bool): Schema { PatternCheck(Base64Pattern, matches, "is not base64") }

  /** A pattern check accepts exactly the strings the pattern matches at
      their start and returns them unchanged; a string it does not match is
      reported with `msg`, or with the pattern when `msg` is empty, at the end. */
  lemma PatternCheckSemantics(data: Value, pattern: string, matches: string -> bool, msg: string, path: string)
    ensures var r := Check(data, PatternCheck(pattern, matches, msg), path);
      && (r.Ok? <==> data.Str? && matches(data.s))
      && (r.Ok? ==> r.value == data)
      && (!data.Str? ==> r == Err(path + " should be a basestring"))
      && (data.Str? && !matches(data.s) ==>
            r.Err? && EndsWith(r.msg, if msg != "" then msg else "does not match /" + pattern + "/"))
  {
  }

  /** A converter that only ever sees strings (its inner schema accepts
      nothing else); anything else is passed through. */
  function OnString(f: string -> Value): Value -> Value
  {
    (v: Value) => if v.Str? then f(v.s) else v
  }

  /** `DATETIME`, `DATE`, `TIME`: the pattern check, then the date parser. */
  function Parsed(pattern: Schema, parse: string -> Value): Schema
  {
    Normalize(pattern, OnString(parse))
  }

  /** `STRIP`, `LOWER`, `UPPER`: any string, mapped through a string method. */
  function TextNormalizer(f: string -> string): Schema
  {
    Normalize(TypeT(BaseStringType), OnString((s: string) => Str(f(s))))
  }

  /** `DECIMAL`: any string, handed to the decimal constructor. */
  function Decimal(parse: string -> Value): Schema
  {
    Normalize(TypeT(BaseStringType), OnString(parse))
  }

  /** A pattern check that `pattern.match` accepts hands the data to the
      parser; on anything else it fails as the pattern check does. */
  lemma ParsedSemantics(data: Value, pattern: string, matches: string -> bool, parse: string -> Value, path: string)
    ensures var r := Check(data, Parsed(PatternCheck(pattern, matches, ""), parse), path);
      && (r.Ok? <==> data.Str? && matches(data.s))
      && (r.Ok? ==> r.value == parse(data.s))
  {
  }

  /** A string normalizer accepts exactly the strings and returns the
      method's result. */
  lemma TextNormalizerSemantics(data: Value, f: string -> string, path: string)
    ensures var r := Check(data, TextNormalizer(f), path);
      && (r.Ok? <==> data.Str?)
      && (r.Ok? ==> r.value == Str(f(data.s)))
      && (!data.Str? ==> r == Err(path + " should be of type \"basestring\""))
  {
  }

  /** `check("1.3", DECIMAL)` returns the decimal the constructor builds from "1.3". */
  lemma DecimalOfString(parse: string -> Value)
    ensures Check(Str("1.3"), Decimal(parse), "") == Ok(parse("1.3"))
  {
  }
}
