/**
 * What a dict template promises: the data must be a dict; `{}` accepts any
 * dict as it is; a non-empty template rejects keys it does not declare and
 * missing mandatory keys, checks every declared key that is present, and
 * reports every violation at once, joined by " and ". On success the new
 * dict has exactly the data's keys, in the data's order.
 */
module DictProperties {
  import opened Values
  import opened Schemas
  import opened Checker

  /** The outcome of checking one entry whose key the template declares. */
  function EntryOutcome(entry: (string, Value), fields: map<string, Schema>, path: string): Result
    requires entry.0 in fields
  {
    Check(entry.1, fields[entry.0], KeyPath(path, entry.0))
  }

  /** Every entry whose key the template declares passes its schema. */
  predicate DeclaredEntriesPass(entries: seq<(string, Value)>, fields: map<string, Schema>, path: string)
  {
    forall i :: 0 <= i < |entries| && entries[i].0 in fields ==> EntryOutcome(entries[i], fields, path).Ok?
  }

  /** The messages of the declared entries that fail, in the data's order. */
  function EntryErrors(entries: seq<(string, Value)>, fields: map<string, Schema>, path: string): seq<string>
    decreases |entries|
  {
    if entries == [] then []
    else
      var last := entries[|entries| - 1];
      EntryErrors(entries[..|entries| - 1], fields, path)
      + (if last.0 in fields && EntryOutcome(last, fields, path).Err?
         then [EntryOutcome(last, fields, path).msg] else [])
  }

  /** The checked values of the declared entries that pass, in the data's order. */
  function CheckedEntries(entries: seq<(string, Value)>, fields: map<string, Schema>, path: string): seq<(string, Value)>
    decreases |entries|
  {
    if entries == [] then []
    else
      var last := entries[|entries| - 1];
      CheckedEntries(entries[..|entries| - 1], fields, path)
      + (if last.0 in fields && EntryOutcome(last, fields, path).Ok?
         then [(last.0, EntryOutcome(last, fields, path).value)] else [])
  }

  lemma {:induction false} DictFromResult(entries: seq<(string, Value)>, s: Schema, path: string, i: nat,
                                          keyErrors: seq<string>)
    requires s.DictT? && i <= |entries|
    ensures DictFrom(entries, s, path, i,
                     keyErrors + EntryErrors(entries[..i], s.fields, path),
                     CheckedEntries(entries[..i], s.fields, path))
         == (var errors := keyErrors + EntryErrors(entries, s.fields, path);
             if errors != [] then Err(Join(errors, " and "))
             else Ok(Dict(CheckedEntries(entries, s.fields, path))))
    decreases |entries| - i
  {
    if i == |entries| {
      assert entries[..i] == entries;
    } else {
      var prefix := entries[..i + 1];
      assert prefix[..i] == entries[..i];
      assert prefix[|prefix| - 1] == entries[i];
      var errors := EntryErrors(entries[..i], s.fields, path);
      var done := CheckedEntries(entries[..i], s.fields, path);
      var (k, v) := entries[i];
      if k in s.fields {
        var outcome := Check(v, s.fields[k], KeyPath(path, k));
        assert outcome == EntryOutcome(entries[i], s.fields, path);
        if outcome.Ok? {
          assert EntryErrors(prefix, s.fields, path) == errors;
          assert CheckedEntries(prefix, s.fields, path) == done + [(k, outcome.value)];
          assert DictFrom(entries, s, path, i, keyErrors + errors, done)
              == DictFrom(entries, s, path, i + 1, keyErrors + errors, done + [(k, outcome.value)]);
        } else {
          assert EntryErrors(prefix, s.fields, path) == errors + [outcome.msg];
          assert CheckedEntries(prefix, s.fields, path) == done;
          assert keyErrors + errors + [outcome.msg] == keyErrors + (errors + [outcome.msg]);
          assert DictFrom(entries, s, path, i, keyErrors + errors, done)
              == DictFrom(entries, s, path, i + 1, keyErrors + errors + [outcome.msg], done);
        }
      } else {
        assert EntryErrors(prefix, s.fields, path) == errors;
        assert CheckedEntries(prefix, s.fields, path) == done;
        assert DictFrom(entries, s, path, i, keyErrors + errors, done)
            == DictFrom(entries, s, path, i + 1, keyErrors + errors, done);
      }
      assert DictFrom(entries, s, path, i, keyErrors + errors, done)
          == DictFrom(entries, s, path, i + 1, keyErrors + EntryErrors(prefix, s.fields, path),
                      CheckedEntries(prefix, s.fields, path));
      DictFromResult(entries, s, path, i + 1, keyErrors);
    }
  }

  /** A non-empty template on a dict: the key-set messages, then the
      per-entry messages, decide; without any the checked entries are returned. */
  lemma DictClosedForm(entries: seq<(string, Value)>, fields: map<string, Schema>, path: string)
    requires |fields| > 0
    ensures Check(Dict(entries), DictT(fields), path)
         == (var errors := KeySetErrors(KeysOf(entries), fields, path) + EntryErrors(entries, fields, path);
             if errors != [] then Err(Join(errors, " and "))
             else Ok(Dict(CheckedEntries(entries, fields, path))))
  {
    var keyErrors := KeySetErrors(KeysOf(entries), fields, path);
    assert entries[..0] == [];
    assert keyErrors + [] == keyErrors;
    DictFromResult(entries, DictT(fields), path, 0, keyErrors);
  }

  lemma {:induction false} EntryErrorsEmpty(entries: seq<(string, Value)>, fields: map<string, Schema>, path: string)
    ensures EntryErrors(entries, fields, path) == [] <==> DeclaredEntriesPass(entries, fields, path)
    decreases |entries|
  {
    if entries != [] {
      var init := entries[..|entries| - 1];
      EntryErrorsEmpty(init, fields, path);
      assert forall i :: 0 <= i < |init| ==> init[i] == entries[i];
    }
  }

  lemma {:induction false} CheckedEntriesWhenAllPass(entries: seq<(string, Value)>, fields: map<string, Schema>, path: string)
    requires forall i :: 0 <= i < |entries| ==> entries[i].0 in fields
    requires DeclaredEntriesPass(entries, fields, path)
    ensures var done := CheckedEntries(entries, fields, path);
      && |done| == |entries|
      && forall i :: 0 <= i < |entries| ==> done[i] == (entries[i].0, EntryOutcome(entries[i], fields, path).value)
    decreases |entries|
  {
    if entries != [] {
      var n := |entries| - 1;
      var init := entries[..n];
      assert forall i :: 0 <= i < n ==> init[i] == entries[i];
      CheckedEntriesWhenAllPass(init, fields, path);
      var last := entries[n];
      assert last.0 in fields && EntryOutcome(last, fields, path).Ok?;
      assert CheckedEntries(entries, fields, path)
          == CheckedEntries(init, fields, path) + [(last.0, EntryOutcome(last, fields, path).value)];
    }
  }

  /** The dict template on any data and any template. */
  lemma DictTemplateSemantics(data: Value, fields: map<string, Schema>, path: string)
    ensures var r := Check(data, DictT(fields), path);
      && (!data.Dict? ==> r == Err(path + " should be a dict"))
      && (data.Dict? && |fields| == 0 ==> r == Ok(data))
      && (data.Dict? && |fields| > 0 ==>
            var keys := KeysOf(data.entries);
            && (r.Ok? <==> keys <= fields.Keys && MandatoryKeys(fields) <= keys
                           && DeclaredEntriesPass(data.entries, fields, path))
            && (r.Ok? ==>
                  && r.value.Dict?
                  && |r.value.entries| == |data.entries|
                  && KeysOf(r.value.entries) == keys
                  && forall i :: 0 <= i < |data.entries| ==>
                       r.value.entries[i] == (data.entries[i].0, EntryOutcome(data.entries[i], fields, path).value))
            && (r.Err? ==>
                  r.msg == Join(KeySetErrors(keys, fields, path) + EntryErrors(data.entries, fields, path), " and ")))
  {
    if data.Dict? && |fields| > 0 {
      var entries := data.entries;
      DictClosedForm(entries, fields, path);
      EntryErrorsEmpty(entries, fields, path);
      var r := Check(data, DictT(fields), path);
      if r.Ok? {
        assert forall i :: 0 <= i < |entries| ==> entries[i].0 in KeysOf(entries);
        CheckedEntriesWhenAllPass(entries, fields, path);
        var out := r.value.entries;
        assert forall i :: 0 <= i < |entries| ==> out[i].0 == entries[i].0;
        assert KeysOf(out) == KeysOf(entries) by {
          forall k | k in KeysOf(out) ensures k in KeysOf(entries) {
            var i :| 0 <= i < |out| && out[i].0 == k;
            assert entries[i].0 == k;
          }
        }
      }
    }
  }

  /** A data key the template does not declare is rejected, whatever the
      mandatory markers say. */
  lemma UndeclaredKeyRejected(entries: seq<(string, Value)>, fields: map<string, Schema>, path: string, key: string)
    requires |fields| > 0 && key in KeysOf(entries) && key !in fields
    ensures Check(Dict(entries), DictT(fields), path).Err?
  {
    DictTemplateSemantics(Dict(entries), fields, path);
  }

  /** A missing key whose schema is directly MANDATORY(...) is rejected. */
  lemma MissingMandatoryKeyRejected(entries: seq<(string, Value)>, fields: map<string, Schema>, path: string, key: string)
    requires key in fields && fields[key].Mandatory? && key !in KeysOf(entries)
    ensures Check(Dict(entries), DictT(fields), path).Err?
  {
    DictTemplateSemantics(Dict(entries), fields, path);
  }

  /** Keys that are not marked mandatory may be absent: a template with no
      mandatory key accepts the empty dict and returns an empty dict. */
  lemma OptionalKeysMayBeAbsent(fields: map<string, Schema>, path: string)
    requires |fields| > 0
    requires forall k :: k in fields ==> !fields[k].Mandatory?
    ensures Check(Dict([]), DictT(fields), path) == Ok(Dict([]))
  {
    DictTemplateSemantics(Dict([]), fields, path);
  }

  lemma {:induction false} SameOutcomesSameResult(entries: seq<(string, Value)>, f1: map<string, Schema>,
                                                  f2: map<string, Schema>, path: string)
    requires f1.Keys == f2.Keys
    requires forall i :: 0 <= i < |entries| && entries[i].0 in f1 ==>
               EntryOutcome(entries[i], f1, path) == EntryOutcome(entries[i], f2, path)
    ensures EntryErrors(entries, f1, path) == EntryErrors(entries, f2, path)
    ensures CheckedEntries(entries, f1, path) == CheckedEntries(entries, f2, path)
    decreases |entries|
  {
    if entries != [] {
      var init := entries[..|entries| - 1];
      assert forall i :: 0 <= i < |init| ==> init[i] == entries[i];
      SameOutcomesSameResult(init, f1, f2, path);
    }
  }

  /** MANDATORY changes nothing but the required-key bookkeeping: when the
      key is present, wrapping its schema in MANDATORY leaves the result of
      the dict template as it was. */
  lemma MandatoryOnlyMarksRequired(entries: seq<(string, Value)>, fields: map<string, Schema>,
                                   path: string, key: string)
    requires key in fields && key in KeysOf(entries)
    ensures Check(Dict(entries), DictT(fields[key := Mandatory(fields[key])]), path)
         == Check(Dict(entries), DictT(fields), path)
  {
    var marked := fields[key := Mandatory(fields[key])];
    assert marked.Keys == fields.Keys;
    assert MandatoryKeys(marked) == MandatoryKeys(fields) + {key};
    var keys := KeysOf(entries);
    assert KeySetErrors(keys, marked, path) == KeySetErrors(keys, fields, path);
    forall i | 0 <= i < |entries| && entries[i].0 in fields
      ensures EntryOutcome(entries[i], fields, path) == EntryOutcome(entries[i], marked, path)
    {
    }
    SameOutcomesSameResult(entries, fields, marked, path);
    DictClosedForm(entries, fields, path);
    DictClosedForm(entries, marked, path);
  }
}
