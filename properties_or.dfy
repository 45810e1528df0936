/**
 * What OR promises: the first alternative, in argument order, that
 * accepts the original data decides the result; it fails only when every
 * alternative fails, with all their messages joined by " or ".
 */
module OrProperties {
  import opened Values
  import opened Schemas
  import opened Checker

  /** The message of a failed outcome. */
  function MessageOf(r: Result): string
  {
    if r.Err? then r.msg else ""
  }

  /** The messages of the first `n` alternatives tried on `data`. */
  function BranchMessages(data: Value, alts: seq<Schema>, path: string, n: nat): (ms: seq<string>)
    requires n <= |alts|
    ensures |ms| == n
    ensures forall k :: 0 <= k < n ==> ms[k] == MessageOf(Check(data, alts[k], path))
  {
    seq(n, k requires 0 <= k < n => MessageOf(Check(data, alts[k], path)))
  }

  lemma {:induction false} OrFromResult(data: Value, s: Schema, path: string, i: nat, errors: seq<string>)
    requires s.Or? && i <= |s.alts|
    requires forall k :: 0 <= k < i ==> Check(data, s.alts[k], path).Err?
    requires errors == BranchMessages(data, s.alts, path, i)
    ensures var r := OrFrom(data, s, path, i, errors);
      && (r.Ok? <==> |s.alts| == 0 || exists j :: i <= j < |s.alts| && Check(data, s.alts[j], path).Ok?)
      && (|s.alts| == 0 ==> r == Ok(data))
      && (forall j :: i <= j < |s.alts| && Check(data, s.alts[j], path).Ok?
            && (forall k :: i <= k < j ==> Check(data, s.alts[k], path).Err?)
            ==> r == Check(data, s.alts[j], path))
      && (|s.alts| > 0 && (forall j :: i <= j < |s.alts| ==> Check(data, s.alts[j], path).Err?) ==>
            r == Err(Join(BranchMessages(data, s.alts, path, |s.alts|), " or ")))
    decreases |s.alts| - i
  {
    if i < |s.alts| {
      var first := Check(data, s.alts[i], path);
      if first.Err? {
        assert errors + [first.msg] == BranchMessages(data, s.alts, path, i + 1);
        OrFromResult(data, s, path, i + 1, errors + [first.msg]);
      }
    }
  }

  /** OR(alts) on `data`: ANY when there are no alternatives; otherwise the
      first successful alternative's result, and a failure exactly when all
      fail, with every message joined by " or ". */
  lemma OrSemantics(data: Value, alts: seq<Schema>, path: string)
    ensures var r := Check(data, Or(alts), path);
      && (alts == [] ==> r == Ok(data))
      && (r.Ok? <==> alts == [] || exists j :: 0 <= j < |alts| && Check(data, alts[j], path).Ok?)
      && (forall j :: 0 <= j < |alts| && Check(data, alts[j], path).Ok?
            && (forall k :: 0 <= k < j ==> Check(data, alts[k], path).Err?)
            ==> r == Check(data, alts[j], path))
      && (alts != [] && (forall j :: 0 <= j < |alts| ==> Check(data, alts[j], path).Err?) ==>
            r == Err(Join(BranchMessages(data, alts, path, |alts|), " or ")))
  {
    OrFromResult(data, Or(alts), path, 0, []);
  }

  /** A later alternative that would also succeed does not matter: with two
      alternatives, the first one's success decides. */
  lemma OrPrefersFirst(data: Value, s1: Schema, s2: Schema, path: string)
    ensures Check(data, s1, path).Ok? ==> Check(data, Or([s1, s2]), path) == Check(data, s1, path)
    ensures Check(data, s1, path).Err? ==>
      Check(data, Or([s1, s2]), path) ==
        match Check(data, s2, path)
        case Ok(v) => Ok(v)
        case Err(e2) => Err(Check(data, s1, path).msg + " or " + e2)
  {
    OrSemantics(data, [s1, s2], path);
    var ms := BranchMessages(data, [s1, s2], path, 2);
    assert Join(ms, " or ") == ms[0] + " or " + ms[1] by {
      assert ms[1..] == [ms[1]];
    }
  }

  /** `ANY = OR()` accepts every value and returns it unchanged. */
  lemma AnyAcceptsEverything(data: Value, path: string)
    ensures Check(data, Any, path) == Ok(data)
  {
    OrSemantics(data, [], path);
  }
}
