/**
 * The scenarios the source's own demonstration runs, against its schema:
 * a list of dicts whose key "a" is mandatory. The ISO 8601 and base64
 * matchers and the strip method are parameters; the pattern `^a*$` of key
 * "c" is simple enough to be written out.
 */
module Demo {
  import opened Values
  import opened Schemas
  import opened Checker
  import opened Prebuilt
  import opened OrProperties
  import opened ListProperties
  import opened DictProperties

  predicate AllAs(s: string)
  {
    forall i :: 0 <= i < |s| ==> s[i] == 'a'
  }

  /** `re.match('^a*$', s)`: only a's, up to an optional final newline
      (Python's `$` also matches just before a trailing newline). */
  predicate MatchesAStar(s: string)
  {
    AllAs(s) || (|s| > 0 && s[|s| - 1] == '\n' && AllAs(s[..|s| - 1]))
  }

  function DemoSchema(datetime: string -> bool, date: string -> bool, time: string -> bool,
                      base64: string -> bool, strip: string -> string): Schema
  {
    ListT([DictT(map[
      "a" := Mandatory(Or([TypeT(NoneType), TypeT(IntType),
                           Or([TextNormalizer(strip), Iso8601Datetime(datetime)])])),
      "b" := TypeT(StrType),
      "c" := PatternCheck("^a*$", MatchesAStar, ""),
      "d" := Iso8601Date(date),
      "e" := Iso8601Time(time),
      "f" := Base64(base64)])])
  }

  /** The path of the list's first element, "[0]". */
  function First(): string { IndexPath("", 0) }

  /** The data `[d]` passes a one-element list template exactly as `d`
      passes the element schema at the first element's path. */
  lemma SingletonList(d: Value, schema: Schema)
    requires schema.ListT? && |schema.elems| == 1
    ensures Check(List([d]), schema, "") ==
      match Check(d, schema.elems[0], First())
      case Ok(v) => Ok(List([v]))
      case Err(m) => Err(m)
  {
    ListTemplateSemantics(List([d]), schema.elems, "");
  }

  /** A dict with a single entry against a non-empty template. */
  lemma SingleEntryDict(key: string, v: Value, fields: map<string, Schema>, path: string)
    requires key in fields
    ensures Check(Dict([(key, v)]), DictT(fields), path) ==
      (var r := Check(v, fields[key], KeyPath(path, key));
       var errors := KeySetErrors({key}, fields, path) + (if r.Err? then [r.msg] else []);
       if errors != [] then Err(Join(errors, " and ")) else Ok(Dict([(key, r.value)])))
  {
    var entries := [(key, v)];
    var r := Check(v, fields[key], KeyPath(path, key));
    assert KeysOf(entries) == {key} by { assert entries[0].0 == key; }
    assert entries[..|entries| - 1] == [];
    assert EntryOutcome(entries[0], fields, path) == r;
    assert EntryErrors(entries, fields, path) == if r.Err? then [r.msg] else [];
    assert CheckedEntries(entries, fields, path) == if r.Ok? then [(key, r.value)] else [];
    DictClosedForm(entries, fields, path);
  }

  /** The template of each dict in the list. */
  function DemoFields(datetime: string -> bool, date: string -> bool, time: string -> bool,
                      base64: string -> bool, strip: string -> string): map<string, Schema>
  {
    DemoSchema(datetime, date, time, base64, strip).elems[0].fields
  }

  /** What the demonstration's dict template declares. */
  lemma DemoFieldsFacts(datetime: string -> bool, date: string -> bool, time: string -> bool,
                        base64: string -> bool, strip: string -> string)
    ensures var fields := DemoFields(datetime, date, time, base64, strip);
      && fields.Keys == {"a", "b", "c", "d", "e", "f"}
      && MandatoryKeys(fields) == {"a"}
      && fields["b"] == TypeT(StrType)
      && fields["c"] == PatternCheck("^a*$", MatchesAStar, "")
      && fields["d"] == Iso8601Date(date)
      && fields["e"] == Iso8601Time(time)
      && fields["f"] == Base64(base64)
  {
    var fields := DemoFields(datetime, date, time, base64, strip);
    assert forall k :: k in fields && k != "a" ==> !fields[k].Mandatory?;
  }

  /** None and ints pass `OR(None, int, OR(text, other))` unchanged, and a
      string is handed to `text` first. */
  lemma NoneIntOrText(v: Value, strip: string -> string, other: Schema, path: string)
    ensures var r := Check(v, Or([TypeT(NoneType), TypeT(IntType), Or([TextNormalizer(strip), other])]), path);
      && (v.Null? || v.Int? ==> r == Ok(v))
      && (v.Str? ==> r == Ok(Str(strip(v.s))))
  {
    var text := Or([TextNormalizer(strip), other]);
    var s := Or([TypeT(NoneType), TypeT(IntType), text]);
    if v.Null? {
      assert Check(v, s.alts[0], path) == Ok(v);
    } else if v.Int? {
      assert Check(v, s.alts[0], path).Err?;
      assert Check(v, s.alts[1], path) == Ok(v);
      assert OrFrom(v, s, path, 0, []) == OrFrom(v, s, path, 1, [Check(v, s.alts[0], path).msg]);
    } else if v.Str? {
      var e0, e1 := Check(v, s.alts[0], path).msg, Check(v, s.alts[1], path).msg;
      assert Check(v, s.alts[0], path) == Err(e0);
      assert Check(v, s.alts[1], path) == Err(e1);
      assert Check(v, text.alts[0], path) == Ok(Str(strip(v.s)));
      assert Check(v, text, path) == Ok(Str(strip(v.s)));
      assert [] + [e0] == [e0];
      assert OrFrom(v, s, path, 0, []) == OrFrom(v, s, path, 1, [e0]);
      assert OrFrom(v, s, path, 1, [e0]) == OrFrom(v, s, path, 2, [e0] + [e1]);
    }
  }

  /** The schema of key "a": None and ints pass unchanged, and a string is
      stripped (STRIP comes before the datetime pattern in the inner OR). */
  lemma KeyA(datetime: string -> bool, date: string -> bool, time: string -> bool,
             base64: string -> bool, strip: string -> string, v: Value, path: string)
    ensures var r := Check(v, DemoFields(datetime, date, time, base64, strip)["a"], path);
      && (v.Null? || v.Int? ==> r == Ok(v))
      && (v.Str? ==> r == Ok(Str(strip(v.s))))
  {
    var inner := Or([TypeT(NoneType), TypeT(IntType), Or([TextNormalizer(strip), Iso8601Datetime(datetime)])]);
    assert DemoFields(datetime, date, time, base64, strip)["a"] == Mandatory(inner);
    NoneIntOrText(v, strip, Iso8601Datetime(datetime), path);
  }

  /** A dict whose keys are all declared and which holds "a" passes the
      key-set checks. */
  lemma KeysWithA(datetime: string -> bool, date: string -> bool, time: string -> bool,
                  base64: string -> bool, strip: string -> string, keys: set<string>, path: string)
    requires "a" in keys && keys <= {"a", "b", "c", "d", "e", "f"}
    ensures KeySetErrors(keys, DemoFields(datetime, date, time, base64, strip), path) == []
  {
    DemoFieldsFacts(datetime, date, time, base64, strip);
  }

  /** A dict whose keys are all declared but which lacks "a" fails the
      mandatory-key check only. */
  lemma KeysWithoutA(datetime: string -> bool, date: string -> bool, time: string -> bool,
                     base64: string -> bool, strip: string -> string, keys: set<string>, path: string)
    requires "a" !in keys && keys <= {"b", "c", "d", "e", "f"}
    ensures KeySetErrors(keys, DemoFields(datetime, date, time, base64, strip), path) == [SupersetMessage(path)]
  {
    DemoFieldsFacts(datetime, date, time, base64, strip);
  }

  /** `tryit(1, schema)` fails: the data is not a list. */
  lemma RejectsNonList(datetime: string -> bool, date: string -> bool, time: string -> bool,
                       base64: string -> bool, strip: string -> string)
    ensures Check(Int(1), DemoSchema(datetime, date, time, base64, strip), "").Err?
  {
  }

  /** `tryit([], schema, fail=False)`: an empty list is accepted as it is. */
  lemma AcceptsEmptyList(datetime: string -> bool, date: string -> bool, time: string -> bool,
                         base64: string -> bool, strip: string -> string)
    ensures Check(List([]), DemoSchema(datetime, date, time, base64, strip), "") == Ok(List([]))
  {
  }

  /** `tryit([{'f': 'x'}], schema)` fails twice over, and both messages are
      reported: "a" is missing, and "x" is not base64. */
  lemma RejectsBadBase64(datetime: string -> bool, date: string -> bool, time: string -> bool,
                         base64: string -> bool, strip: string -> string)
    requires !base64("x")
    ensures var fields := DemoFields(datetime, date, time, base64, strip);
      Check(List([Dict([("f", Str("x"))])]), DemoSchema(datetime, date, time, base64, strip), "")
      == Err(SupersetMessage(First()) + " and "
             + Check(Str("x"), fields["f"], KeyPath(First(), "f")).msg)
  {
    var fields := DemoFields(datetime, date, time, base64, strip);
    DemoFieldsFacts(datetime, date, time, base64, strip);
    KeysWithoutA(datetime, date, time, base64, strip, {"f"}, First());
    SingleEntryDict("f", Str("x"), fields, First());
    var errors := KeySetErrors({"f"}, fields, First()) + [Check(Str("x"), fields["f"], KeyPath(First(), "f")).msg];
    assert errors[1..] == [errors[1]];
    SingletonList(Dict([("f", Str("x"))]), DemoSchema(datetime, date, time, base64, strip));
  }

  /** `tryit([{'a': 1}], schema, fail=False)`. */
  lemma AcceptsMandatoryInt(datetime: string -> bool, date: string -> bool, time: string -> bool,
                            base64: string -> bool, strip: string -> string)
    ensures Check(List([Dict([("a", Int(1))])]), DemoSchema(datetime, date, time, base64, strip), "")
         == Ok(List([Dict([("a", Int(1))])]))
  {
    var fields := DemoFields(datetime, date, time, base64, strip);
    DemoFieldsFacts(datetime, date, time, base64, strip);
    KeyA(datetime, date, time, base64, strip, Int(1), KeyPath(First(), "a"));
    KeysWithA(datetime, date, time, base64, strip, {"a"}, First());
    SingleEntryDict("a", Int(1), fields, First());
    SingletonList(Dict([("a", Int(1))]), DemoSchema(datetime, date, time, base64, strip));
  }

  /** `tryit([{'a': None}], schema, fail=False)`. */
  lemma AcceptsMandatoryNone(datetime: string -> bool, date: string -> bool, time: string -> bool,
                             base64: string -> bool, strip: string -> string)
    ensures Check(List([Dict([("a", Null)])]), DemoSchema(datetime, date, time, base64, strip), "")
         == Ok(List([Dict([("a", Null)])]))
  {
    var fields := DemoFields(datetime, date, time, base64, strip);
    DemoFieldsFacts(datetime, date, time, base64, strip);
    KeyA(datetime, date, time, base64, strip, Null, KeyPath(First(), "a"));
    KeysWithA(datetime, date, time, base64, strip, {"a"}, First());
    SingleEntryDict("a", Null, fields, First());
    SingletonList(Dict([("a", Null)]), DemoSchema(datetime, date, time, base64, strip));
  }

  /** `tryit([{'a': ' 2016-12-01T09:34:34 '}], schema, fail=False)` returns
      the stripped string: STRIP is tried before the datetime pattern. */
  lemma StripWinsInsideOr(datetime: string -> bool, date: string -> bool, time: string -> bool,
                          base64: string -> bool, strip: string -> string)
    ensures Check(List([Dict([("a", Str(" 2016-12-01T09:34:34 "))])]), DemoSchema(datetime, date, time, base64, strip), "")
         == Ok(List([Dict([("a", Str(strip(" 2016-12-01T09:34:34 ")))])]))
  {
    var fields := DemoFields(datetime, date, time, base64, strip);
    var v := Str(" 2016-12-01T09:34:34 ");
    DemoFieldsFacts(datetime, date, time, base64, strip);
    KeyA(datetime, date, time, base64, strip, v, KeyPath(First(), "a"));
    KeysWithA(datetime, date, time, base64, strip, {"a"}, First());
    SingleEntryDict("a", v, fields, First());
    SingletonList(Dict([("a", v)]), DemoSchema(datetime, date, time, base64, strip));
  }

  /** A three-entry dict whose key set passes and whose entries all pass
      unchanged is returned as it is. */
  lemma AllThreePass(e0: (string, Value), e1: (string, Value), e2: (string, Value),
                     fields: map<string, Schema>, path: string)
    requires |fields| > 0
    requires e0.0 in fields && e1.0 in fields && e2.0 in fields
    requires KeySetErrors(KeysOf([e0, e1, e2]), fields, path) == []
    requires EntryOutcome(e0, fields, path) == Ok(e0.1)
    requires EntryOutcome(e1, fields, path) == Ok(e1.1)
    requires EntryOutcome(e2, fields, path) == Ok(e2.1)
    ensures Check(Dict([e0, e1, e2]), DictT(fields), path) == Ok(Dict([e0, e1, e2]))
  {
    var entries := [e0, e1, e2];
    assert entries[..2][..1] == entries[..1] == [e0];
    assert entries[..1][..0] == [];
    assert EntryErrors([e0], fields, path) == [];
    assert EntryErrors(entries[..2], fields, path) == [];
    assert EntryErrors(entries, fields, path) == [];
    assert CheckedEntries([e0], fields, path) == [e0];
    assert CheckedEntries(entries[..2], fields, path) == [e0, e1];
    assert CheckedEntries(entries, fields, path) == entries;
    DictClosedForm(entries, fields, path);
  }

  /** `tryit([{'a': 1, 'd': '1023-02-02', 'e': '12:12:12'}], schema, fail=False)`,
      given that the date and time patterns match those strings. */
  lemma AcceptsDateAndTime(datetime: string -> bool, date: string -> bool, time: string -> bool,
                           base64: string -> bool, strip: string -> string)
    requires date("1023-02-02") && time("12:12:12")
    ensures var d := Dict([("a", Int(1)), ("d", Str("1023-02-02")), ("e", Str("12:12:12"))]);
      Check(List([d]), DemoSchema(datetime, date, time, base64, strip), "") == Ok(List([d]))
  {
    var fields := DemoFields(datetime, date, time, base64, strip);
    DemoFieldsFacts(datetime, date, time, base64, strip);
    var e0, e1, e2 := ("a", Int(1)), ("d", Str("1023-02-02")), ("e", Str("12:12:12"));
    KeyA(datetime, date, time, base64, strip, Int(1), KeyPath(First(), "a"));
    assert KeysOf([e0, e1, e2]) == {"a", "d", "e"} by {
      var entries := [e0, e1, e2];
      assert entries[0].0 == "a" && entries[1].0 == "d" && entries[2].0 == "e";
    }
    KeysWithA(datetime, date, time, base64, strip, {"a", "d", "e"}, First());
    assert EntryOutcome(e1, fields, First()) == Ok(e1.1);
    assert EntryOutcome(e2, fields, First()) == Ok(e2.1);
    AllThreePass(e0, e1, e2, fields, First());
    SingletonList(Dict([e0, e1, e2]), DemoSchema(datetime, date, time, base64, strip));
  }

  /** A three-entry dict whose key set passes, whose first entry passes and
      whose other two fail reports the two failures, in order. */
  lemma TwoOfThreeFail(e0: (string, Value), e1: (string, Value), e2: (string, Value),
                       fields: map<string, Schema>, path: string)
    requires |fields| > 0
    requires e0.0 in fields && e1.0 in fields && e2.0 in fields
    requires KeySetErrors(KeysOf([e0, e1, e2]), fields, path) == []
    requires EntryOutcome(e0, fields, path).Ok?
    requires EntryOutcome(e1, fields, path).Err? && EntryOutcome(e2, fields, path).Err?
    ensures Check(Dict([e0, e1, e2]), DictT(fields), path)
         == Err(EntryOutcome(e1, fields, path).msg + " and " + EntryOutcome(e2, fields, path).msg)
  {
    var entries := [e0, e1, e2];
    var m1, m2 := EntryOutcome(e1, fields, path).msg, EntryOutcome(e2, fields, path).msg;
    assert entries[..2][..1] == entries[..1] == [e0];
    assert entries[..1][..0] == [];
    assert EntryErrors([e0], fields, path) == [];
    assert EntryErrors(entries[..2], fields, path) == [m1];
    assert EntryErrors(entries, fields, path) == [m1, m2];
    DictClosedForm(entries, fields, path);
    JoinTwo(m1, m2, " and ");
  }

  /** After key "a", the entries for "b" and "c", in either order, both
      fail and are reported in that order. */
  lemma TwoViolations(datetime: string -> bool, date: string -> bool, time: string -> bool,
                      base64: string -> bool, strip: string -> string, e1: (string, Value), e2: (string, Value))
    requires (e1, e2) == (("b", Int(2)), ("c", Str("b"))) || (e1, e2) == (("c", Str("b")), ("b", Int(2)))
    ensures var fields := DemoFields(datetime, date, time, base64, strip);
      Check(List([Dict([("a", Int(1)), e1, e2])]), DemoSchema(datetime, date, time, base64, strip), "")
      == Err(MessageOf(Check(e1.1, fields[e1.0], KeyPath(First(), e1.0))) + " and "
             + MessageOf(Check(e2.1, fields[e2.0], KeyPath(First(), e2.0))))
  {
    var fields := DemoFields(datetime, date, time, base64, strip);
    DemoFieldsFacts(datetime, date, time, base64, strip);
    var e0 := ("a", Int(1));
    KeyA(datetime, date, time, base64, strip, Int(1), KeyPath(First(), "a"));
    assert KeysOf([e0, e1, e2]) == {"a", "b", "c"} by {
      var entries := [e0, e1, e2];
      assert entries[0].0 == "a" && entries[1].0 == e1.0 && entries[2].0 == e2.0;
    }
    KeysWithA(datetime, date, time, base64, strip, {"a", "b", "c"}, First());
    assert !MatchesAStar("b") by { assert "b"[0] != 'a'; }
    assert EntryOutcome(e1, fields, First()).Err?;
    assert EntryOutcome(e2, fields, First()).Err?;
    TwoOfThreeFail(e0, e1, e2, fields, First());
    SingletonList(Dict([e0, e1, e2]), DemoSchema(datetime, date, time, base64, strip));
  }

  /** `tryit([{'a': 1, 'b': 2, 'c': 'b'}], schema)`: two independent
      violations, reported together. The messages follow the dict's
      iteration order, which is Python's hash order: with CPython 2.7's
      string hashes 'a', 'b' and 'c' fall in slots 0, 3 and 2 of the
      8-slot table, so the literal iterates a, c, b. Both orders that put
      'a' first are stated. */
  lemma ReportsEveryViolation(datetime: string -> bool, date: string -> bool, time: string -> bool,
                              base64: string -> bool, strip: string -> string)
    ensures var fields := DemoFields(datetime, date, time, base64, strip);
      var schema := DemoSchema(datetime, date, time, base64, strip);
      var mb := MessageOf(Check(Int(2), fields["b"], KeyPath(First(), "b")));
      var mc := MessageOf(Check(Str("b"), fields["c"], KeyPath(First(), "c")));
      && Check(List([Dict([("a", Int(1)), ("c", Str("b")), ("b", Int(2))])]), schema, "") == Err(mc + " and " + mb)
      && Check(List([Dict([("a", Int(1)), ("b", Int(2)), ("c", Str("b"))])]), schema, "") == Err(mb + " and " + mc)
  {
    TwoViolations(datetime, date, time, base64, strip, ("c", Str("b")), ("b", Int(2)));
    TwoViolations(datetime, date, time, base64, strip, ("b", Int(2)), ("c", Str("b")));
  }

  lemma JoinTwo(x: string, y: string, sep: string)
    ensures Join([x, y], sep) == x + sep + y
  {
    assert [x, y][1..] == [y];
  }

  /** `tryit([{'b': 'x'}], schema)`: the mandatory key "a" is missing. */
  lemma RejectsMissingMandatory(datetime: string -> bool, date: string -> bool, time: string -> bool,
                                base64: string -> bool, strip: string -> string)
    ensures Check(List([Dict([("b", Str("x"))])]), DemoSchema(datetime, date, time, base64, strip), "")
         == Err(SupersetMessage(First()))
  {
    var fields := DemoFields(datetime, date, time, base64, strip);
    DemoFieldsFacts(datetime, date, time, base64, strip);
    KeysWithoutA(datetime, date, time, base64, strip, {"b"}, First());
    SingleEntryDict("b", Str("x"), fields, First());
    SingletonList(Dict([("b", Str("x"))]), DemoSchema(datetime, date, time, base64, strip));
  }
}
