/**
 * What AND promises: it succeeds exactly when running its steps one after
 * the other, each on the previous step's result, succeeds, and then it
 * returns that chained result. After a failure it goes on with the value
 * of the last successful step and collects every message.
 */
module AndProperties {
  import opened Values
  import opened Schemas
  import opened Checker

  /** The reference meaning of a validation pipeline: each step on the
      previous step's result, stopping at the first failure. */
  function Pipeline(v: Value, steps: seq<Schema>, path: string): Result
    decreases |steps|
  {
    if steps == [] then Ok(v)
    else
      match Check(v, steps[0], path)
      case Ok(w) => Pipeline(w, steps[1..], path)
      case Err(e) => Err(e)
  }

  lemma {:induction false} AndFromMatchesPipeline(s: Schema, path: string, i: nat, carried: Value)
    requires s.And? && i <= |s.steps|
    ensures var r := AndFrom(s, path, i, carried, []);
      var p := Pipeline(carried, s.steps[i..], path);
      && (r.Ok? <==> p.Ok?)
      && (p.Ok? ==> r == p)
      && (p.Err? ==> p.msg <= r.msg)
    decreases |s.steps| - i
  {
    if i < |s.steps| {
      assert s.steps[i..][1..] == s.steps[i + 1..];
      match Check(carried, s.steps[i], path)
      case Ok(v) =>
        AndFromMatchesPipeline(s, path, i + 1, v);
      case Err(e) =>
        assert [] + [e] == [e];
        assert Join([e], " and ") == e;
    }
  }

  /** AND(steps) succeeds exactly when the pipeline of its steps does and then
      returns the chained value; when it fails, the pipeline's first failure
      message leads its message. */
  lemma AndSemantics(data: Value, steps: seq<Schema>, path: string)
    ensures var r := Check(data, And(steps), path);
      var p := Pipeline(data, steps, path);
      && (r.Ok? <==> p.Ok?)
      && (p.Ok? ==> r == p)
      && (p.Err? ==> p.msg <= r.msg)
  {
    AndFromMatchesPipeline(And(steps), path, 0, data);
    assert steps[0..] == steps;
  }

  /** AND(s1, s2) succeeds exactly when s1 succeeds and s2 succeeds on
      s1's result, and returns s2's result. */
  lemma AndOfTwo(data: Value, s1: Schema, s2: Schema, path: string)
    ensures var r := Check(data, And([s1, s2]), path);
      && (r.Ok? <==> Check(data, s1, path).Ok? && Check(Check(data, s1, path).value, s2, path).Ok?)
      && (r.Ok? ==> r == Check(Check(data, s1, path).value, s2, path))
  {
    AndSemantics(data, [s1, s2], path);
    assert [s1, s2][1..] == [s2];
    assert [s2][1..] == [];
    if Check(data, s1, path).Ok? {
      var w := Check(data, s1, path).value;
      assert Pipeline(data, [s1, s2], path) == Pipeline(w, [s2], path);
      if Check(w, s2, path).Ok? {
        assert Pipeline(w, [s2], path) == Pipeline(Check(w, s2, path).value, [], path);
      }
    }
  }

  /** AND's run defined from the front: the value carried past all steps
      (a failed step leaves it as it was) and the messages of the failed
      steps, in order. */
  function AndRun(v: Value, steps: seq<Schema>, path: string): (Value, seq<string>)
    decreases |steps|
  {
    if steps == [] then (v, [])
    else
      match Check(v, steps[0], path)
      case Ok(w) => AndRun(w, steps[1..], path)
      case Err(e) => (AndRun(v, steps[1..], path).0, [e] + AndRun(v, steps[1..], path).1)
  }

  /** How AND ends, given the value carried and the messages collected. */
  function AndOutcome(carried: Value, errors: seq<string>): Result
  {
    if errors != [] then Err(Join(errors, " and ")) else Ok(carried)
  }

  lemma {:induction false} AndFromRun(s: Schema, path: string, i: nat, carried: Value, errors: seq<string>)
    requires s.And? && i <= |s.steps|
    ensures AndFrom(s, path, i, carried, errors)
         == AndOutcome(AndRun(carried, s.steps[i..], path).0, errors + AndRun(carried, s.steps[i..], path).1)
    decreases |s.steps| - i
  {
    if i == |s.steps| {
      assert s.steps[i..] == [];
      assert errors + [] == errors;
    } else {
      assert s.steps[i..][0] == s.steps[i];
      assert s.steps[i..][1..] == s.steps[i + 1..];
      match Check(carried, s.steps[i], path)
      case Ok(v) =>
        AndFromRun(s, path, i + 1, v, errors);
      case Err(e) =>
        AndFromRun(s, path, i + 1, carried, errors + [e]);
        var rest := AndRun(carried, s.steps[i + 1..], path).1;
        assert errors + [e] + rest == errors + ([e] + rest);
    }
  }

  /** AND in closed form: every step runs, each on the value of the last
      step that succeeded; it fails iff some step failed, and then its
      message is all the failed steps' messages, in order, joined by " and ". */
  lemma AndClosedForm(data: Value, steps: seq<Schema>, path: string)
    ensures Check(data, And(steps), path)
         == (var run := AndRun(data, steps, path);
             if run.1 != [] then Err(Join(run.1, " and ")) else Ok(run.0))
  {
    AndFromRun(And(steps), path, 0, data, []);
    assert steps[0..] == steps;
    assert [] + AndRun(data, steps, path).1 == AndRun(data, steps, path).1;
  }

  /** A step that succeeds hands its result on: the rest of AND runs on it. */
  lemma AndAfterSuccessfulHead(data: Value, head: Schema, rest: seq<Schema>, path: string)
    requires Check(data, head, path).Ok?
    ensures Check(data, And([head] + rest), path) == Check(Check(data, head, path).value, And(rest), path)
  {
    AndClosedForm(data, [head] + rest, path);
    AndClosedForm(Check(data, head, path).value, rest, path);
    assert ([head] + rest)[0] == head;
    assert ([head] + rest)[1..] == rest;
  }

  /** A failed step does not stop AND and does not change the carried value:
      the remaining steps run on the same data, and their messages follow
      the failed step's. */
  lemma AndContinuesAfterFailure(data: Value, head: Schema, rest: seq<Schema>, path: string)
    requires Check(data, head, path).Err?
    ensures Check(data, And([head] + rest), path) ==
      match Check(data, And(rest), path)
      case Ok(_) => Err(Check(data, head, path).msg)
      case Err(m) => Err(Check(data, head, path).msg + " and " + m)
  {
    var e := Check(data, head, path).msg;
    AndClosedForm(data, [head] + rest, path);
    AndClosedForm(data, rest, path);
    assert ([head] + rest)[0] == head;
    assert ([head] + rest)[1..] == rest;
    var errs := AndRun(data, rest, path).1;
    assert AndRun(data, [head] + rest, path).1 == [e] + errs;
    if errs != [] {
      assert ([e] + errs)[1..] == errs;
    }
  }
}
