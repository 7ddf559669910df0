/** The profile-independent aggregator: numbers are collected per path and combined. */
module GenericAggregation {
  import opened Json
  import opened Options
  import opened Statistics
  import opened Flatten
  import opened CvScoring

  datatype GenericAggregate = GenericAggregate(
    profile: string,
    aggregationMethod: string,
    runCount: nat,
    fieldAggregations: map<string, real>,
    sourceArtifacts: seq<SourceArtifact>)

  const GENERIC_PROFILE := "generic_passthrough"

  /** The number one output has at a path, if any. */
  function ValueAt(output: Value, path: string): seq<real> {
    if path in NumericPaths(output) then [NumericPaths(output)[path]] else []
  }

  /** The values found at a path, in the order of the outputs. */
  function ValuesAt(outputs: seq<Value>, path: string): seq<real> {
    if outputs == [] then [] else ValueAt(outputs[0], path) + ValuesAt(outputs[1..], path)
  }

  lemma ValuesAtFirst(outputs: seq<Value>, path: string)
    requires outputs != []
    ensures ValuesAt(outputs, path) == ValueAt(outputs[0], path) + ValuesAt(outputs[1..], path)
  {
  }

  lemma {:induction false} ValuesAtAppend(a: seq<Value>, b: seq<Value>, path: string)
    ensures ValuesAt(a + b, path) == ValuesAt(a, path) + ValuesAt(b, path)
  {
    hide ValueAt;
    if a == [] {
      assert a + b == b && ValuesAt(a, path) == [];
    } else {
      hide ValuesAt;
      assert (a + b)[0] == a[0] && (a + b)[1..] == a[1..] + b;
      ValuesAtFirst(a, path);
      ValuesAtFirst(a + b, path);
      ValuesAtAppend(a[1..], b, path);
    }
  }

  lemma ValuesAtOne(output: Value, path: string)
    ensures ValuesAt([output], path) == ValueAt(output, path)
  {
    assert [output][1..] == [];
  }

  /** A path has values exactly when some output has a number there. */
  lemma {:induction false} ValuesAtPresent(outputs: seq<Value>, path: string)
    ensures ValuesAt(outputs, path) != [] <==> exists k :: 0 <= k < |outputs| && path in NumericPaths(outputs[k])
  {
    if outputs != [] {
      ValuesAtPresent(outputs[1..], path);
      assert forall k :: 0 <= k < |outputs| - 1 ==> outputs[1..][k] == outputs[k + 1];
      if ValuesAt(outputs[1..], path) != [] {
        var k :| 0 <= k < |outputs[1..]| && path in NumericPaths(outputs[1..][k]);
        assert path in NumericPaths(outputs[k + 1]);
      } else if exists k :: 0 <= k < |outputs| && path in NumericPaths(outputs[k]) {
        var k :| 0 <= k < |outputs| && path in NumericPaths(outputs[k]);
        assert k == 0 || outputs[k] == outputs[1..][k - 1];
      }
    }
  }

  /** All paths at which some output has a number. */
  function AllPaths(outputs: seq<Value>): (paths: set<string>)
    ensures forall p :: p in paths <==> exists k :: 0 <= k < |outputs| && p in NumericPaths(outputs[k])
  {
    set k, p | 0 <= k < |outputs| && p in NumericPaths(outputs[k]) :: p
  }

  /** The aggregated fields: one for each path, and nothing else. */
  function GenericFields(outputs: seq<Value>, how: Method): map<string, real> {
    map p | p in AllPaths(outputs) :: AggregateValues(ValuesAt(outputs, p), how)
  }

  /** What the dictionary of lists holds after the given outputs. */
  ghost predicate Collected(byPath: map<string, seq<real>>, outputs: seq<Value>) {
    forall p ::
      && (p in byPath <==> ValuesAt(outputs, p) != [])
      && (p in byPath ==> byPath[p] == ValuesAt(outputs, p))
  }

  method AggregateGeneric(outputs: seq<Value>, name: string,
                          artifacts: seq<SourceArtifact>) returns (agg: Option<GenericAggregate>)
    ensures agg.None? <==> outputs == []
    ensures agg.Some? ==> agg.value.profile == "generic_passthrough"
    ensures agg.Some? ==>
      agg.value == GenericAggregate(GENERIC_PROFILE, name, |outputs|, GenericFields(outputs, MethodNamed(name)),
          artifacts)
  {
    if outputs == [] {
      return None;
    }
    var byPath: map<string, seq<real>> := map[];
    for k := 0 to |outputs|
      invariant Collected(byPath, outputs[..k])
    {
      assert outputs[..k + 1] == outputs[..k] + [outputs[k]];
      byPath := AppendNumbers(byPath, outputs[..k], outputs[k]);
    }
    assert outputs[..|outputs|] == outputs;
    var how := MethodNamed(name);
    var fields: map<string, real> := map[];
    var todo := byPath.Keys;
    while todo != {}
      invariant todo <= byPath.Keys
      invariant fields.Keys == byPath.Keys - todo
      invariant forall p :: p in fields ==> fields[p] == AggregateValues(byPath[p], how)
      decreases todo
    {
      var p :| p in todo;
      fields := fields[p := AggregateValues(byPath[p], how)];
      todo := todo - {p};
    }
    forall p ensures p in byPath <==> p in AllPaths(outputs) {
      ValuesAtPresent(outputs, p);
    }
    assert fields == GenericFields(outputs, how);
    agg := Some(GenericAggregate(GENERIC_PROFILE, name, |outputs|, fields, artifacts));
  }

  /** Appending one output's numbers to the lists they belong to. */
  method AppendNumbers(byPath: map<string, seq<real>>, ghost before: seq<Value>, output: Value)
    returns (r: map<string, seq<real>>)
    requires Collected(byPath, before)
    ensures Collected(r, before + [output])
  {
    hide Collected, ValuesAt, NumericPaths;
    var numbers := ExtractNumericPaths(output);
    var todo := numbers.Keys;
    r := byPath;
    while todo != {}
      invariant todo <= numbers.Keys
      invariant r.Keys == byPath.Keys + (numbers.Keys - todo)
      invariant forall p :: p in r ==>
        r[p] == (if p in byPath then byPath[p] else []) + (if p in numbers && p !in todo then [numbers[p]] else [])
      decreases todo
    {
      var p :| p in todo;
      r := r[p := (if p in r then r[p] else []) + [numbers[p]]];
      todo := todo - {p};
    }
    NumbersAppended(byPath, before, output, r);
  }

  lemma NumbersAppended(byPath: map<string, seq<real>>, before: seq<Value>, output: Value, r: map<string, seq<real>>)
    requires Collected(byPath, before)
    requires r.Keys == byPath.Keys + NumericPaths(output).Keys
    requires forall p :: p in r ==> r[p] == (if p in byPath then byPath[p] else []) + ValueAt(output, p)
    ensures Collected(r, before + [output])
  {
    hide ValuesAt, NumericPaths;
    forall p
      ensures p in r <==> ValuesAt(before + [output], p) != []
      ensures p in r ==> r[p] == ValuesAt(before + [output], p)
    {
      ValuesAtAppend(before, [output], p);
      ValuesAtOne(output, p);
    }
  }

  // ---- what the aggregates mean ------------------------------------------------------------

  /** Splitting a permutation of a around the place of a's first element. */
  lemma SplitAround(a: seq<Value>, b: seq<Value>) returns (l: seq<Value>, r: seq<Value>)
    requires a != [] && multiset(a) == multiset(b)
    ensures b == l + ([a[0]] + r)
    ensures multiset(l + r) == multiset(a[1..])
  {
    assert a[0] in multiset(b);
    var i :| 0 <= i < |b| && b[i] == a[0];
    l, r := b[..i], b[i + 1..];
    var x, rest := a[0], a[1..];
    assert a == [x] + rest;
    assert b == l + ([x] + r);
    SameTail(multiset{x}, multiset(l + r), multiset(rest));
  }

  lemma {:induction false} ValuesAtPermutation(a: seq<Value>, b: seq<Value>, path: string)
    requires multiset(a) == multiset(b)
    ensures multiset(ValuesAt(a, path)) == multiset(ValuesAt(b, path))
    decreases |a|
  {
    if a == [] {
      assert |b| == |multiset(b)| == 0;
    } else {
      hide ValuesAt;
      var l, r := SplitAround(a, b);
      ValuesAtPermutation(a[1..], l + r, path);
      assert a == [a[0]] + a[1..];
      ValuesAtAppend([a[0]], a[1..], path);
      ValuesAtAppend(l, [a[0]] + r, path);
      ValuesAtAppend([a[0]], r, path);
      ValuesAtAppend(l, r, path);
    }
  }

  /** Reordering the outputs changes neither the fields there are nor any of their values,
      so two calls on permuted outputs agree. */
  lemma GenericPermutation(a: seq<Value>, b: seq<Value>, how: Method)
    requires multiset(a) == multiset(b)
    ensures GenericFields(a, how) == GenericFields(b, how)
  {
    hide ValuesAt, AggregateValues, AllPaths;
    forall p
      ensures p in AllPaths(a) <==> p in AllPaths(b)
      ensures AggregateValues(ValuesAt(a, p), how) == AggregateValues(ValuesAt(b, p), how)
    {
      ValuesAtPresent(a, p);
      ValuesAtPresent(b, p);
      ValuesAtPermutation(a, b, p);
      assert |ValuesAt(a, p)| == |multiset(ValuesAt(a, p))| == |multiset(ValuesAt(b, p))| == |ValuesAt(b, p)|;
      AggregatePermutation(ValuesAt(a, p), ValuesAt(b, p), how);
    }
  }

  /** Every aggregate lies between the least and the greatest value it was made from. */
  lemma GenericWithinRange(outputs: seq<Value>, path: string, how: Method, a: real, b: real)
    requires path in AllPaths(outputs)
    requires forall k :: 0 <= k < |outputs| && path in NumericPaths(outputs[k]) ==>
      a <= NumericPaths(outputs[k])[path] <= b
    ensures a <= GenericFields(outputs, how)[path] <= b
  {
    ValuesAtPresent(outputs, path);
    var vs := ValuesAt(outputs, path);
    ValuesAtBounds(outputs, path, a, b);
    CountNone(vs, Below(a));
    CountNone(vs, Above(b));
    AggregateRobust(vs, how, a, b);
  }

  lemma {:induction false} ValuesAtBounds(outputs: seq<Value>, path: string, a: real, b: real)
    requires forall k :: 0 <= k < |outputs| && path in NumericPaths(outputs[k]) ==>
      a <= NumericPaths(outputs[k])[path] <= b
    ensures forall i :: 0 <= i < |ValuesAt(outputs, path)| ==> a <= ValuesAt(outputs, path)[i] <= b
  {
    if outputs != [] {
      assert forall k :: 0 <= k < |outputs| - 1 ==> outputs[1..][k] == outputs[k + 1];
      ValuesAtBounds(outputs[1..], path, a, b);
    }
  }
}
