/** Flattening a JSON tree into a map from printed path to number. */
module Flatten {
  import opened Json
  import opened Text

  datatype Step = Key(key: string) | Index(i: nat)

  datatype Entry = Entry(path: string, number: real)
  datatype Leaf = Leaf(at: seq<Step>, number: real)

  /** Booleans are not numbers here. */
  predicate IsNumber(v: Value) {
    v.Int? || v.Float?
  }

  function NumberOf(v: Value): real
    requires IsNumber(v)
  {
    match v
    case Int(n) => n as real
    case Float(r) => r
  }

  /** The path printed for a child. */
  function Extend(path: string, step: Step): string {
    match step
    case Key(k) => if path != "" then path + "." + k else k
    case Index(i) => path + "[" + Decimal(i) + "]"
  }

  // ---- the entries a visit writes, in order ------------------------------------------------

  function Entries(node: Value, path: string): seq<Entry>
    decreases node, 0
  {
    match node
    case Obj(fields) => FieldEntries(fields, path)
    case Arr(items) => ItemEntries(items, path, 0)
    case _ => if IsNumber(node) then [Entry(path, NumberOf(node))] else []
  }

  function FieldEntries(fields: seq<Field>, path: string): seq<Entry>
    decreases fields, 0
  {
    if fields == [] then []
    else Entries(fields[0].value, Extend(path, Key(fields[0].key))) + FieldEntries(fields[1..], path)
  }

  function ItemEntries(items: seq<Value>, path: string, from: nat): seq<Entry>
    decreases items, 0
  {
    if items == [] then []
    else Entries(items[0], Extend(path, Index(from))) + ItemEntries(items[1..], path, from + 1)
  }

  /** Assigning the entries one after another to a dictionary. */
  function Written(m: map<string, real>, es: seq<Entry>): map<string, real>
    decreases es
  {
    if es == [] then m else Written(m[es[0].path := es[0].number], es[1..])
  }

  lemma {:induction false} WrittenAppend(m: map<string, real>, a: seq<Entry>, b: seq<Entry>)
    ensures Written(m, a + b) == Written(Written(m, a), b)
    decreases a
  {
    if a == [] {
      assert a + b == b;
    } else {
      assert (a + b)[1..] == a[1..] + b;
      WrittenAppend(m[a[0].path := a[0].number], a[1..], b);
    }
  }

  /** The value of a call to the flattener. */
  function NumericPaths(output: Value): map<string, real> {
    Written(map[], Entries(output, ""))
  }

  /** The nested visit fills one shared dictionary. */
  class Flattener {
    var result: map<string, real>

    constructor ()
      ensures result == map[]
    {
      result := map[];
    }

    method Visit(node: Value, path: string)
      modifies this
      ensures result == Written(old(result), Entries(node, path))
      decreases node, 1
    {
      if node.Obj? {
        var fields := node.fields;
        for k := 0 to |fields|
          invariant Written(result, FieldEntries(fields[k..], path)) == Written(old(result), Entries(node, path))
        {
          ghost var before := result;
          var next := if path != "" then path + "." + fields[k].key else fields[k].key;
          Visit(fields[k].value, next);
          WrittenAppend(before, Entries(fields[k].value, next), FieldEntries(fields[k + 1..], path));
          assert fields[k..][1..] == fields[k + 1..];
        }
      } else if node.Arr? {
        var items := node.items;
        for k := 0 to |items|
          invariant Written(result, ItemEntries(items[k..], path, k)) == Written(old(result), Entries(node, path))
        {
          ghost var before := result;
          var next := path + "[" + Decimal(k) + "]";
          Visit(items[k], next);
          WrittenAppend(before, Entries(items[k], next), ItemEntries(items[k + 1..], path, k + 1));
          assert items[k..][1..] == items[k + 1..];
        }
      } else if IsNumber(node) {
        result := result[path := NumberOf(node)];
      }
    }
  }

  method ExtractNumericPaths(output: Value) returns (result: map<string, real>)
    ensures result == NumericPaths(output)
  {
    var f := new Flattener();
    f.Visit(output, "");
    result := f.result;
  }

  // ---- leaves and their addresses ------------------------------------------------------------

  function Leaves(node: Value, at: seq<Step>): seq<Leaf>
    decreases node, 0
  {
    match node
    case Obj(fields) => FieldLeaves(fields, at)
    case Arr(items) => ItemLeaves(items, at, 0)
    case _ => if IsNumber(node) then [Leaf(at, NumberOf(node))] else []
  }

  function FieldLeaves(fields: seq<Field>, at: seq<Step>): seq<Leaf>
    decreases fields, 0
  {
    if fields == [] then []
    else Leaves(fields[0].value, at + [Key(fields[0].key)]) + FieldLeaves(fields[1..], at)
  }

  function ItemLeaves(items: seq<Value>, at: seq<Step>, from: nat): seq<Leaf>
    decreases items, 0
  {
    if items == [] then []
    else Leaves(items[0], at + [Index(from)]) + ItemLeaves(items[1..], at, from + 1)
  }

  /** The path printed for an address. */
  function Render(at: seq<Step>): string {
    if at == [] then "" else Extend(Render(at[..|at| - 1]), at[|at| - 1])
  }

  lemma RenderStep(at: seq<Step>, step: Step)
    ensures Render(at + [step]) == Extend(Render(at), step)
  {
    assert (at + [step])[..|at|] == at;
  }

  function Printed(ls: seq<Leaf>): seq<Entry> {
    seq(|ls|, i requires 0 <= i < |ls| => Entry(Render(ls[i].at), ls[i].number))
  }

  /** The visit writes one entry per numeric leaf, at the leaf's printed address. */
  lemma {:induction false} EntriesAreLeaves(node: Value, at: seq<Step>)
    ensures Entries(node, Render(at)) == Printed(Leaves(node, at))
    decreases node, 1
  {
    match node
    case Obj(fields) => FieldEntriesAreLeaves(fields, at);
    case Arr(items) => ItemEntriesAreLeaves(items, at, 0);
    case _ =>
  }

  lemma {:induction false} FieldEntriesAreLeaves(fields: seq<Field>, at: seq<Step>)
    ensures FieldEntries(fields, Render(at)) == Printed(FieldLeaves(fields, at))
    decreases fields, 0
  {
    if fields != [] {
      RenderStep(at, Key(fields[0].key));
      EntriesAreLeaves(fields[0].value, at + [Key(fields[0].key)]);
      FieldEntriesAreLeaves(fields[1..], at);
    }
  }

  lemma {:induction false} ItemEntriesAreLeaves(items: seq<Value>, at: seq<Step>, from: nat)
    ensures ItemEntries(items, Render(at), from) == Printed(ItemLeaves(items, at, from))
    decreases items, 0
  {
    hide Render, Decimal;
    if items != [] {
      RenderStep(at, Index(from));
      EntriesAreLeaves(items[0], at + [Index(from)]);
      ItemEntriesAreLeaves(items[1..], at, from + 1);
    }
  }

  // ---- writing entries with distinct paths -------------------------------------------------------

  ghost predicate DistinctPaths(es: seq<Entry>) {
    forall i, j :: 0 <= i < j < |es| ==> es[i].path != es[j].path
  }

  ghost predicate HasPath(es: seq<Entry>, p: string) {
    exists i :: 0 <= i < |es| && es[i].path == p
  }

  lemma HasPathSplits(es: seq<Entry>, p: string)
    requires es != []
    ensures HasPath(es, p) <==> es[0].path == p || HasPath(es[1..], p)
  {
    assert forall i :: 0 < i < |es| ==> es[i] == es[1..][i - 1];
    assert forall i :: 0 <= i < |es| - 1 ==> es[1..][i] == es[i + 1];
  }

  /** Writing leaves every other path alone, and its own paths are there afterwards. */
  lemma {:induction false} WrittenDomain(m: map<string, real>, es: seq<Entry>, p: string)
    ensures p in Written(m, es) <==> p in m || HasPath(es, p)
    ensures !HasPath(es, p) && p in m ==> Written(m, es)[p] == m[p]
    decreases es
  {
    hide HasPath;
    if es == [] {
      assert !HasPath(es, p) by { NoPath(p); }
    } else {
      HasPathSplits(es, p);
      WrittenDomain(m[es[0].path := es[0].number], es[1..], p);
    }
  }

  lemma NoPath(p: string)
    ensures !HasPath([], p)
  {
  }

  lemma {:induction false} WrittenValue(m: map<string, real>, es: seq<Entry>, i: nat)
    requires DistinctPaths(es) && i < |es|
    ensures es[i].path in Written(m, es) && Written(m, es)[es[i].path] == es[i].number
    decreases es
  {
    var m' := m[es[0].path := es[0].number];
    assert forall j :: 0 <= j < |es| - 1 ==> es[1..][j] == es[j + 1];
    if i == 0 {
      WrittenDomain(m', es[1..], es[0].path);
    } else {
      WrittenValue(m', es[1..], i - 1);
    }
  }

  lemma {:induction false} WrittenSize(m: map<string, real>, es: seq<Entry>)
    requires DistinctPaths(es) && forall i :: 0 <= i < |es| ==> es[i].path !in m
    ensures |Written(m, es)| == |m| + |es|
    decreases es
  {
    if es != [] {
      var m' := m[es[0].path := es[0].number];
      assert m'.Keys == m.Keys + {es[0].path};
      assert forall j :: 0 <= j < |es| - 1 ==> es[1..][j] == es[j + 1];
      WrittenSize(m', es[1..]);
    }
  }
}
