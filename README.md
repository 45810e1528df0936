# poormanschema in Dafny

A model of `poormanschema`, a small validation-and-normalization engine for
untyped nested data (what a JSON parser produces). A caller passes a data
tree and a schema tree. `check` walks the two together and returns either a
newly built, possibly transformed tree or one error message that collects
every violation it found.

A schema is interpreted by its shape, in this order:

1. a validator built by the library: `OR`, `AND`, `MANDATORY`, `RE`, `NORMALIZE`;
2. a list template (`[]` or `[element_schema]`);
3. a dict template (key to schema);
4. a string, compared literally;
5. a type (`int`, `str`, `None` standing for `NoneType`, ...), checked with `isinstance`.

## Layout

- `values.dfy` (module `Values`): the data tree `Value` and the Python type tests.
  A dict is an ordered list of entries, in the order Python iterates it.
- `schema.dfy` (module `Schemas`): the `Schema` datatype, with one constructor per
  shape above, the single error channel `Result = Ok(value) | Err(msg)`, `' sep '.join`,
  and the diagnostic paths `path[i]` and `path{key}`.
- `checker.dfy` (module `Checker`): `Check`, the dispatcher as a pure recursive
  interpreter. It recurses only on strict sub-terms of the schema. Each of the four
  loops of the source (OR, AND, the list template, the dict template) is an
  accumulator function: `OrFrom`, `AndFrom`, `ListFrom`, `DictFrom`.
- `engine.dfy` (module `Engine`): the same engine as the source runs it. It has one
  recursive method per dispatch point and `while` loops that append to the error
  list and the result list. Each method is proved to return exactly what `Check` returns.
- `properties_or.dfy`, `properties_and.dfy`, `properties_list.dfy`,
  `properties_dict.dfy`, `properties_leaf.dfy`: what each kind of schema promises,
  proved about `Check`.
- `prebuilt.dfy` (module `Prebuilt`): the exported validators `ISO8601_*`, `BASE64`,
  `DATETIME`/`DATE`/`TIME`, `STRIP`/`LOWER`/`UPPER` and `DECIMAL`.
- `findings.dfy` (module `KeySetFinding`): the key-set check of the dict template
  as written, which differs from the intended behaviour (see Findings).
- `demo.dfy` (module `Demo`): the scenarios of the module's `__main__` block, proved
  against its schema.

`check` turns the `AssertionError` raised inside `check1` into a `ValueError`, and
the combinators raise `ValueError` themselves. So a caller sees a single error
channel, which is `Result.Err` here.

A list template with more than one element is not a separate kind of failure.
It is an `assert` inside `check1`, so it becomes an ordinary `ValueError`: an
enclosing `OR` catches it like any other failure. It is also only raised when the
data is a list. The model returns `Err` in exactly that case.

## Model

| member | source | states |
|---|---|---|
| `Checker.Check` | poormanschema.py:103-152 | `check`/`check1` as a function of data, schema and path; a one-element list template that succeeds returns a list as long as the data, and a dict template that succeeds was given a dict and returns one (what each kind of schema does is stated by the lemmas below) |
| `Checker.OrFrom` | poormanschema.py:8-18 | the OR loop from alternative `i` on; once messages have been collected, a failure's message starts with them joined by " or " |
| `Checker.AndFrom` | poormanschema.py:27-34 | the AND loop from step `i` on; once a message has been collected, AND fails, and its message starts with the collected messages joined by " and " |
| `Checker.ListFrom` | poormanschema.py:118-121 | the list-template loop from element `i` on; a success keeps the elements already checked as a prefix and has one element per data element |
| `Checker.DictFrom` | poormanschema.py:137-145 | the dict-template loop from entry `i` on; once a message has been collected the template fails with the collected messages leading; a success keeps the entries already checked as a prefix and has at most one entry per data entry |
| `Schemas.Join` | poormanschema.py:17 | `' or '.join(...)` (also `' and '.join` at lines 33 and 144): the joined string starts with the first part and ends with the last |
| `Schemas.JoinKeepsPrefix` | poormanschema.py:33 | joining more messages keeps the earlier messages' join as a prefix, so messages collected first lead the final message |
| `Engine.Validate` | poormanschema.py:103-152 | for every data, schema and path, `check` returns exactly the interpreter's result `Check` |
| `Engine.ValidateOr` | poormanschema.py:5-19 | the OR loop (try each alternative on the original data, return the first success, else join the collected messages with " or ", or return the data when there are no alternatives) computes `Check(data, Or(alts))` |
| `Engine.ValidateAnd` | poormanschema.py:24-35 | the AND loop (each step on the carried value, a failed step recorded and skipped, all messages joined with " and ") computes `Check(data, And(steps))` |
| `Engine.ValidateList` | poormanschema.py:118-121 | the loop that appends each checked element and stops at the first failure computes the list template's result |
| `Engine.ValidateDict` | poormanschema.py:127-145 | the loop over the data's keys, which fills the new dict and the error list, computes the dict template's result, starting from the key-set messages |
| `OrProperties.OrSemantics` | poormanschema.py:5-19 | `OR()` returns the data; OR succeeds iff some alternative succeeds on the original data; the result is that of the first successful alternative in argument order; if all fail, the message is all their messages joined with " or " |
| `OrProperties.OrPrefersFirst` | poormanschema.py:8-14 | with two alternatives, the first one's success decides even if the second would succeed too; otherwise the second decides, and two failures give "m1 or m2" |
| `OrProperties.AnyAcceptsEverything` | poormanschema.py:15-21 | `ANY = OR()` accepts every value and returns it unchanged |
| `AndProperties.AndClosedForm` | poormanschema.py:24-35 | AND in closed form against `AndRun`, defined independently from the front: every step runs, each on the value of the last step that succeeded; AND fails iff some step failed, and then its message is all the failed steps' messages, in order, joined with " and "; otherwise it returns the carried value |
| `AndProperties.AndSemantics` | poormanschema.py:24-35 | AND succeeds iff the short-circuiting pipeline of its steps (each on the previous step's result) succeeds, and then returns the pipeline's value; on failure the pipeline's first failure message leads AND's message (the full message is stated by `AndClosedForm`) |
| `AndProperties.AndAfterSuccessfulHead` | poormanschema.py:27-29 | a step that succeeds hands its result on: `AND(head, *rest)` on the data is `AND(*rest)` on the head's result, whatever the later steps do |
| `AndProperties.AndOfTwo` | poormanschema.py:24-35 | `AND(s1, s2)` succeeds iff s1 succeeds and s2 succeeds on s1's result, and returns s2's result |
| `AndProperties.AndContinuesAfterFailure` | poormanschema.py:27-33 | a failed step is recorded and the remaining steps still run, on the unchanged value: `AND(head, *rest)` fails with the head's message, followed by " and " and the message of `AND(*rest)` if that fails too |
| `ListProperties.ListTemplateSemantics` | poormanschema.py:114-122 | non-list data fails; `[]` returns the list as it is; a template with more than one element fails; `[e]` succeeds iff every element passes `e` at path `path[i]`, and then returns a list of the same length whose i-th element is the checked i-th element; otherwise the first failing element's error is the result |
| `DictProperties.DictTemplateSemantics` | poormanschema.py:123-146 | non-dict data fails; `{}` returns the dict as it is; a non-empty template succeeds iff the data's keys are among the template's, every mandatory key is present and every declared entry passes; on success the new dict has the data's keys in the data's order, each with its checked value; on failure the message is the key-set messages and then the per-entry messages, joined with " and " |
| `DictProperties.DictClosedForm` | poormanschema.py:125-145 | the dict template's result equals the key-set messages plus the failing entries' messages, in order, or the dict of checked entries when there is none |
| `DictProperties.UndeclaredKeyRejected` | poormanschema.py:128-131 | a data key the template does not declare makes the template fail, whatever the mandatory markers |
| `DictProperties.MissingMandatoryKeyRejected` | poormanschema.py:126-135 | a missing key whose schema is directly `MANDATORY(...)` makes the template fail |
| `DictProperties.OptionalKeysMayBeAbsent` | poormanschema.py:132-135 | keys not marked mandatory may be absent: a template without mandatory keys accepts `{}` and returns `{}` |
| `DictProperties.MandatoryOnlyMarksRequired` | poormanschema.py:38-42 | wrapping a present key's schema in `MANDATORY` leaves the dict template's result unchanged |
| `LeafProperties.MandatorySemantics` | poormanschema.py:38-42 | `MANDATORY(s)` validates and transforms exactly like `s` |
| `LeafProperties.TypeSchemaSemantics` | poormanschema.py:150-152 | a type schema succeeds iff the data is an instance of the type, and then returns the data unchanged |
| `LeafProperties.LiteralSchemaSemantics` | poormanschema.py:147-149 | a string schema succeeds iff the data equals that string, and then returns the data unchanged |
| `LeafProperties.ReSemantics` | poormanschema.py:45-56 | RE succeeds iff the data is a string the pattern matches at its start; it returns the data when no replacement is set, and the substituted string otherwise |
| `LeafProperties.NormalizeSemantics` | poormanschema.py:67-71 | NORMALIZE fails iff its inner schema fails, with the same message; otherwise it returns the converter applied to the inner result |
| `Checker.CheckType` | poormanschema.py:150-152 | succeeds iff `isinstance(data, t)` (a bool is an int), returning the data |
| `Checker.CheckLiteral` | poormanschema.py:147-149 | succeeds iff the data is that very string, returning the data |
| `Checker.CheckRe` | poormanschema.py:48-55 | non-string data fails with "should be a basestring"; otherwise it succeeds iff the pattern matches at the start, and the result is the data or the substitution; a string that does not match gets the no-match message |
| `Checker.NoMatchMessage` | poormanschema.py:50-51 | the no-match message ends with `msg`, or with "does not match /pattern/" when `msg` is empty |
| `Checker.Preview` | poormanschema.py:50-51 | `data[:100]`: a prefix of the string, the whole string when it has at most 100 characters, exactly 100 characters otherwise |
| `Checker.KeySetErrors` | poormanschema.py:126-135 | no key-set message iff the data's keys are among the template's and every mandatory key is present; the subset message comes first |
| `Prebuilt.PatternCheckSemantics` | poormanschema.py:58-64 | `ISO8601_*`, `BASE64` and `RE(p, msg=m)` without replacement accept exactly the strings their pattern matches at the start, returning them unchanged; non-strings get the basestring message; a string that does not match gets a message ending with `m` (`is not base64`), or with "does not match /p/" when there is no `m` |
| `Prebuilt.ParsedSemantics` | poormanschema.py:88-92 | `DATETIME`/`DATE`/`TIME` succeed iff the data is a string their pattern matches, and return the parser's result |
| `Prebuilt.TextNormalizerSemantics` | poormanschema.py:94-98 | `STRIP`/`LOWER`/`UPPER` accept exactly the strings and return the string method's result; anything else fails with the `basestring` type message |
| `Prebuilt.DecimalOfString` | poormanschema.py:186 | `check("1.3", DECIMAL)` returns the decimal built from "1.3" |
| `KeySetFinding.KeySetErrorsAsWritten` | poormanschema.py:128-135 | as written, the key-set phase raises TypeError iff a data key is undeclared |
| `KeySetFinding.AsWrittenAgreesOnDeclaredKeys` | poormanschema.py:132-135 | when every data key is declared, the key-set phase as written and as intended agree |
| `KeySetFinding.UndeclaredKeyRaisesTypeError` | poormanschema.py:128-131 | on `{'x': 1}` against `{'a': int}`, the code as written raises TypeError, while the intended engine reports a validation error |
| `Demo.NoneIntOrText` | poormanschema.py:157 | `OR(None, int, OR(STRIP, other))` returns None and ints unchanged, and a string stripped, whatever `other` is |
| `Demo.KeyA` | poormanschema.py:157 | the demonstration's key "a" accepts None and ints unchanged, and returns a string stripped, because STRIP comes first in the inner OR |
| `Demo.RejectsNonList` | poormanschema.py:177 | `1` is rejected: it is not a list |
| `Demo.AcceptsEmptyList` | poormanschema.py:178 | `[]` is accepted and returned |
| `Demo.RejectsBadBase64` | poormanschema.py:179 | `[{'f': 'x'}]` is rejected with both the missing-mandatory message and the base64 message |
| `Demo.AcceptsMandatoryInt` | poormanschema.py:180 | `[{'a': 1}]` is accepted unchanged, even though the other keys are absent |
| `Demo.AcceptsDateAndTime` | poormanschema.py:181 | `[{'a': 1, 'd': '1023-02-02', 'e': '12:12:12'}]` is accepted unchanged when the date and time patterns match |
| `Demo.AcceptsMandatoryNone` | poormanschema.py:182 | `[{'a': None}]` is accepted unchanged |
| `Demo.StripWinsInsideOr` | poormanschema.py:183 | `[{'a': ' 2016-12-01T09:34:34 '}]` returns the stripped string, not a parsed datetime |
| `Demo.ReportsEveryViolation` | poormanschema.py:184 | `[{'a': 1, 'b': 2, 'c': 'b'}]` fails with the messages for "b" and "c", joined with " and " in the dict's iteration order; both orders with 'a' first are stated (a, c, b is CPython 2.7's order for this literal) |
| `Demo.RejectsMissingMandatory` | poormanschema.py:185 | `[{'b': 'x'}]` fails with the missing-mandatory message |

## Findings

| source | as written | input that shows it | evidently intended | confidence | as-written member | corrected member |
|---|---|---|---|---|---|---|
| poormanschema.py:131 | `sorted(schema.keys)` sorts the bound method, not the list of keys, so building the "not a subset" message raises TypeError. That error is not a ValueError: it escapes `check`, and an enclosing `OR`, `AND` or dict template does not catch it | `check({'x': 1}, {'a': int})` | a ValueError saying the data's keys are not a subset of the template's | high; not executed | `KeySetFinding.KeySetErrorsAsWritten` | `Checker.KeySetErrors` |

The rest of the model uses the corrected `Checker.KeySetErrors`.

## Left out

- Regular expressions: `Regex` carries `pattern.match` as a predicate (`matchesAtStart`) and `pattern.sub` as a function. The `flags` argument is part of the compiled matcher. The actual patterns of `ISO8601_*` and `BASE64` are kept only as text. The demonstration's `^a*$` is written out, including `$` matching before a final newline.
- Converters: the `isodate` parsers, `decimal.Decimal` and the string methods `strip`/`lower`/`upper` are library code. They appear as function parameters. Their results are `Value.Object` or strings. The decimal round trip ("1.3" back to "1.3") belongs to the decimal library and is not stated.
- Converter exceptions: converters are total here. In the source an exception from a converter is not a validation failure. It escapes, unless it happens to be a `ValueError` subclass, as `isodate`'s errors are, which an enclosing OR, AND or dict template would then catch.
- Arbitrary user callables used as schemas (poormanschema.py:111-112): only the library's own validators are modelled.
- Message text: the messages of the list and dict templates, the type test, `RE` (with its 100-character preview) and the joins are kept word for word. Three messages are reworded, because their exact text needs Python's `str` and `sorted`. The key-set messages (poormanschema.py:129-135) become "<path> keys are not a subset of the template keys" and "<path> keys are not a superset of the mandatory keys", without the sorted key lists. The literal-mismatch message (poormanschema.py:148) becomes "<path> value should be <lit>", without ", but it's <data>".
- Python's dict order is its hash order. The model takes the order of a dict's entries as given, so the order of per-key messages follows that order.
- `Values.IsInstance`: a class type (`ClassType(name)`) accepts only an `Object` of exactly that class name. Python's `isinstance` at poormanschema.py:151 also accepts instances of subclasses (a `datetime` is a `date`, everything is an `object`). Subclassing is not modelled.
- Dict well-formedness: `Value.Dict` is a list of entries and may repeat a key, which no Python dict does. The lemmas also hold for such lists; nothing in the model relies on keys being distinct.
- Types: byte strings and unicode strings are one `Str`, so `str` and `basestring` accept the same values. `long`, `float` and tuples are not modelled. Dict keys are strings.
- A non-string scalar used as a schema (`5`, `True`) stands for its type; it is written as `TypeT` of that type.
- The bare types `list` or `dict` used as a schema make `len(schema)` raise TypeError. Only list and dict templates are modelled.
- Recursion depth: the source can exhaust the Python stack on deeply nested data. The model has no such limit.
- The `__main__` block's printing and its `tryit` helper: only its scenarios are modelled, in `Demo`.
