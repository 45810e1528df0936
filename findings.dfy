/**
 * The key-set checks of a non-empty dict template as the source writes
 * them. Building the "not a subset" message sorts `schema.keys`, the bound
 * method, instead of `schema.keys()`, its result; sorting a method raises
 * TypeError. That error is neither an AssertionError nor a ValueError, so it
 * escapes `check`, OR, AND and the enclosing dict template instead of
 * becoming a validation failure. The rest of the model uses the evidently
 * intended KeySetErrors of module Checker.
 */
module KeySetFinding {
  import opened Values
  import opened Schemas
  import opened Checker

  /** What the key-set phase produces: the collected messages, or the
      TypeError that escapes the engine. */
  datatype KeySetOutcome = Collected(errors: seq<string>) | RaisesTypeError

  /** The key-set checks as written. */
  function KeySetErrorsAsWritten(keys: set<string>, fields: map<string, Schema>, path: string): (r: KeySetOutcome)
    ensures r.RaisesTypeError? <==> !(keys <= fields.Keys)
  {
    if !(keys <= fields.Keys) then RaisesTypeError
    else Collected(if MandatoryKeys(fields) <= keys then []
                   else [SupersetMessage(path)])
  }

  /** The two agree whenever every data key is declared. */
  lemma AsWrittenAgreesOnDeclaredKeys(keys: set<string>, fields: map<string, Schema>, path: string)
    requires keys <= fields.Keys
    ensures KeySetErrorsAsWritten(keys, fields, path) == Collected(KeySetErrors(keys, fields, path))
  {
  }

  /** The input that shows the discrepancy: a dict with the undeclared key
      "x" against the template {"a": int}. As written the engine raises
      TypeError; as intended it reports a validation error. */
  lemma UndeclaredKeyRaisesTypeError(path: string)
    ensures KeySetErrorsAsWritten({"x"}, map["a" := TypeT(IntType)], path) == RaisesTypeError
    ensures Check(Dict([("x", Int(1))]), DictT(map["a" := TypeT(IntType)]), path).Err?
  {
    var entries := [("x", Int(1))];
    assert entries[0].0 == "x";
    assert "x" in KeysOf(entries);
    assert !(KeysOf(entries) <= map["a" := TypeT(IntType)].Keys);
  }
}
