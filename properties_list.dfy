/**
 * What a list template promises: the data must be a list; `[]` accepts
 * any list as it is; `[e]` builds a new list of the same length whose i-th
 * element is the i-th element checked against `e`, and the first element
 * that fails decides the error.
 */
module ListProperties {
  import opened Values
  import opened Schemas
  import opened Checker

  /** Every element of `items` before `n` passes `e`. */
  predicate ElementsPass(items: seq<Value>, e: Schema, path: string, n: nat)
    requires n <= |items|
  {
    forall k :: 0 <= k < n ==> Check(items[k], e, IndexPath(path, k)).Ok?
  }

  lemma {:induction false} ListFromResult(items: seq<Value>, s: Schema, path: string, i: nat, done: seq<Value>)
    requires s.ListT? && |s.elems| == 1 && i <= |items|
    requires ElementsPass(items, s.elems[0], path, i)
    requires |done| == i
    requires forall k :: 0 <= k < i ==> done[k] == Check(items[k], s.elems[0], IndexPath(path, k)).value
    ensures var r := ListFrom(items, s, path, i, done);
      && (r.Ok? <==> ElementsPass(items, s.elems[0], path, |items|))
      && (r.Ok? ==>
            && r.value.List? && |r.value.items| == |items|
            && forall k :: 0 <= k < |items| ==>
                 r.value.items[k] == Check(items[k], s.elems[0], IndexPath(path, k)).value)
      && (forall j :: i <= j < |items| && ElementsPass(items, s.elems[0], path, j)
            && Check(items[j], s.elems[0], IndexPath(path, j)).Err?
            ==> r == Check(items[j], s.elems[0], IndexPath(path, j)))
    decreases |items| - i
  {
    if i < |items| {
      var first := Check(items[i], s.elems[0], IndexPath(path, i));
      if first.Ok? {
        ListFromResult(items, s, path, i + 1, done + [first.value]);
      }
    }
  }

  /** The list template on any data and any template. */
  lemma ListTemplateSemantics(data: Value, elems: seq<Schema>, path: string)
    ensures var r := Check(data, ListT(elems), path);
      && (!data.List? ==> r == Err(path + " should be a list"))
      && (data.List? && elems == [] ==> r == Ok(data))
      && (data.List? && |elems| > 1 ==> r.Err?)
      && (data.List? && |elems| == 1 ==>
            && (r.Ok? <==> ElementsPass(data.items, elems[0], path, |data.items|))
            && (r.Ok? ==>
                  && r.value.List? && |r.value.items| == |data.items|
                  && forall k :: 0 <= k < |data.items| ==>
                       r.value.items[k] == Check(data.items[k], elems[0], IndexPath(path, k)).value)
            && (forall j :: 0 <= j < |data.items| && ElementsPass(data.items, elems[0], path, j)
                  && Check(data.items[j], elems[0], IndexPath(path, j)).Err?
                  ==> r == Check(data.items[j], elems[0], IndexPath(path, j))))
  {
    if data.List? && |elems| == 1 {
      ListFromResult(data.items, ListT(elems), path, 0, []);
    }
  }
}
