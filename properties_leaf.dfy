/**
 * The schemas that do not loop: a type, a string literal, RE, NORMALIZE
 * and MANDATORY, as the dispatcher applies them.
 */
module LeafProperties {
  import opened Values
  import opened Schemas
  import opened Checker

  /** A type schema accepts exactly the instances of the type and returns
      the data unchanged. */
  lemma TypeSchemaSemantics(data: Value, t: PyType, path: string)
    ensures var r := Check(data, TypeT(t), path);
      && (r.Ok? <==> IsInstance(data, t))
      && (r.Ok? ==> r.value == data)
  {
  }

  /** A string schema accepts exactly that string and returns it unchanged. */
  lemma LiteralSchemaSemantics(data: Value, lit: string, path: string)
    ensures var r := Check(data, Lit(lit), path);
      && (r.Ok? <==> data == Str(lit))
      && (r.Ok? ==> r.value == data)
  {
  }

  /** RE fails on anything but a string the pattern matches at its start;
      it returns the data, or the substituted string when a replacement is set. */
  lemma ReSemantics(data: Value, rx: Regex, repl: string, count: nat, msg: string, path: string)
    ensures var r := Check(data, Re(rx, repl, count, msg), path);
      && (r.Ok? <==> data.Str? && rx.matchesAtStart(data.s))
      && (r.Ok? && repl == "" ==> r.value == data)
      && (r.Ok? && repl != "" ==> r.value == Str(rx.sub(repl, data.s, count)))
  {
  }

  /** NORMALIZE fails exactly when its inner schema fails, with the same
      message, and otherwise returns the converter applied to the inner result. */
  lemma NormalizeSemantics(data: Value, inner: Schema, conv: Value -> Value, path: string)
    ensures var r := Check(data, Normalize(inner, conv), path);
      var checked := Check(data, inner, path);
      && (r.Ok? <==> checked.Ok?)
      && (r.Ok? ==> r.value == conv(checked.value))
      && (r.Err? ==> r.msg == checked.msg)
  {
  }

  /** MANDATORY validates and transforms exactly like the schema it wraps. */
  lemma MandatorySemantics(data: Value, inner: Schema, path: string)
    ensures Check(data, Mandatory(inner), path) == Check(data, inner, path)
  {
  }
}
