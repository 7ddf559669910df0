/** The flattened dictionary against the tree itself: which numbers it has, and under which paths. */
module TreeNumbers {
  import opened Options
  import opened Json
  import opened Flatten
  import opened PathKeys

  /** The number at an address, found by walking down the tree. */
  ghost function NumberAt(node: Value, at: seq<Step>): Option<real>
    decreases |at|
  {
    if at == [] then
      match node
      case Int(n) => Some(n as real)
      case Float(r) => Some(r)
      case _ => None
    else
      match (node, at[0])
      case (Obj(fields), Key(k)) => if Find(fields, k).Some? then NumberAt(Find(fields, k).value, at[1..]) else None
      case (Arr(items), Index(i)) => if i < |items| then NumberAt(items[i], at[1..]) else None
      case _ => None
  }

  ghost predicate StartsWith(at: seq<Step>, pre: seq<Step>) {
    |pre| <= |at| && at[..|pre|] == pre
  }

  /** The leaf lies below `pre`, and the rest of its address leads to its number. */
  ghost predicate LeafFits(node: Value, pre: seq<Step>, l: Leaf) {
    StartsWith(l.at, pre) && NumberAt(node, l.at[|pre|..]) == Some(l.number)
  }

  ghost predicate Inside(node: Value, step: Step, child: Value) {
    match (node, step)
    case (Obj(fields), Key(k)) => Find(fields, k) == Some(child)
    case (Arr(items), Index(i)) => i < |items| && items[i] == child
    case _ => false
  }

  lemma FitsFromChild(node: Value, pre: seq<Step>, step: Step, child: Value, l: Leaf)
    requires Inside(node, step, child) && LeafFits(child, pre + [step], l)
    ensures LeafFits(node, pre, l)
  {
    hide Find;
    var rest := l.at[|pre|..];
    assert l.at[..|pre| + 1] == pre + [step];
    assert l.at[..|pre|] == (pre + [step])[..|pre|] == pre;
    assert rest[0] == l.at[|pre|] == (pre + [step])[|pre|] == step;
    assert rest[1..] == l.at[|pre| + 1..];
  }

  // ---- every leaf is a number of the tree --------------------------------------------------------

  lemma {:induction false} LeavesFit(node: Value, pre: seq<Step>, odd: set<string>)
    requires TreeOver(node, odd)
    ensures forall l :: l in Leaves(node, pre) ==> LeafFits(node, pre, l)
    decreases node, 1
  {
    match node
    case Obj(fields) =>
      FieldsInside(node, fields);
      FieldLeavesFit(node, fields, pre, odd);
    case Arr(items) => ItemLeavesFit(node, items, 0, pre, odd);
    case _ => assert pre[..|pre|] == pre && pre[|pre|..] == [];
  }

  lemma FieldsInside(node: Value, fields: seq<Field>)
    requires node == Obj(fields) && DistinctKeys(fields)
    ensures forall k :: 0 <= k < |fields| ==> Inside(node, Key(fields[k].key), fields[k].value)
  {
    hide Find;
    forall k | 0 <= k < |fields| ensures Inside(node, Key(fields[k].key), fields[k].value) {
      FindMember(fields, fields[k].key);
    }
  }

  lemma {:induction false} FieldLeavesFit(node: Value, fields: seq<Field>, pre: seq<Step>, odd: set<string>)
    requires FieldsOver(fields, odd)
    requires forall k :: 0 <= k < |fields| ==> Inside(node, Key(fields[k].key), fields[k].value)
    ensures forall l :: l in FieldLeaves(fields, pre) ==> LeafFits(node, pre, l)
    decreases fields, 0
  {
    if fields != [] {
      var step, child := Key(fields[0].key), fields[0].value;
      LeavesFit(child, pre + [step], odd);
      assert forall k :: 0 <= k < |fields| - 1 ==> fields[1..][k] == fields[k + 1];
      FieldLeavesFit(node, fields[1..], pre, odd);
      hide LeafFits, Inside, NumberAt, Leaves;
      forall l | l in Leaves(child, pre + [step]) ensures LeafFits(node, pre, l) {
        FitsFromChild(node, pre, step, child, l);
      }
    }
  }

  lemma {:induction false} ItemLeavesFit(node: Value, items: seq<Value>, from: nat, pre: seq<Step>, odd: set<string>)
    requires ItemsOver(items, odd)
    requires forall k :: 0 <= k < |items| ==> Inside(node, Index(from + k), items[k])
    ensures forall l :: l in ItemLeaves(items, pre, from) ==> LeafFits(node, pre, l)
    decreases items, 0
  {
    if items != [] {
      var step, child := Index(from), items[0];
      assert Inside(node, Index(from + 0), items[0]);
      LeavesFit(child, pre + [step], odd);
      forall k | 0 <= k < |items[1..]| ensures Inside(node, Index(from + 1 + k), items[1..][k]) {
        assert Inside(node, Index(from + (k + 1)), items[k + 1]);
      }
      ItemLeavesFit(node, items[1..], from + 1, pre, odd);
      hide LeafFits, Inside, NumberAt, Leaves;
      forall l | l in Leaves(child, pre + [step]) ensures LeafFits(node, pre, l) {
        FitsFromChild(node, pre, step, child, l);
      }
    }
  }

  // ---- every number of the tree is a leaf -----------------------------------------------------------

  lemma {:induction false} NumberIsLeaf(node: Value, at: seq<Step>, pre: seq<Step>)
    requires NumberAt(node, at).Some?
    ensures Leaf(pre + at, NumberAt(node, at).value) in Leaves(node, pre)
    decreases |at|
  {
    if at == [] {
      assert pre + at == pre;
    } else {
      var rest := at[1..];
      assert pre + [at[0]] + rest == pre + at;
      match (node, at[0])
      case (Obj(fields), Key(k)) =>
        NumberIsLeaf(Find(fields, k).value, rest, pre + [at[0]]);
        FieldHasLeaves(fields, k, pre);
      case (Arr(items), Index(i)) =>
        NumberIsLeaf(items[i], rest, pre + [at[0]]);
        ItemHasLeaves(items, 0, i, pre);
      case _ =>
    }
  }

  lemma {:induction false} FieldHasLeaves(fields: seq<Field>, k: string, pre: seq<Step>)
    requires Find(fields, k).Some?
    ensures forall l :: l in Leaves(Find(fields, k).value, pre + [Key(k)]) ==> l in FieldLeaves(fields, pre)
  {
    if fields[0].key != k {
      FieldHasLeaves(fields[1..], k, pre);
    }
  }

  lemma {:induction false} ItemHasLeaves(items: seq<Value>, from: nat, i: nat, pre: seq<Step>)
    requires i < |items|
    ensures forall l :: l in Leaves(items[i], pre + [Index(from + i)]) ==> l in ItemLeaves(items, pre, from)
    decreases i
  {
    if i > 0 {
      ItemHasLeaves(items[1..], from + 1, i - 1, pre);
      assert items[1..][i - 1] == items[i] && from + 1 + (i - 1) == from + i;
    }
  }

  lemma LeavesAreNumbers(tree: Value, odd: set<string>)
    requires TreeOver(tree, odd)
    ensures forall at, x :: Leaf(at, x) in Leaves(tree, []) <==> NumberAt(tree, at) == Some(x)
  {
    LeavesFit(tree, [], odd);
    hide NumberAt, Leaves;
    forall at, x ensures Leaf(at, x) in Leaves(tree, []) <==> NumberAt(tree, at) == Some(x) {
      assert at[0..] == at && [] + at == at;
      if Leaf(at, x) in Leaves(tree, []) {
        assert LeafFits(tree, [], Leaf(at, x));
      }
      if NumberAt(tree, at) == Some(x) {
        NumberIsLeaf(tree, at, []);
      }
    }
  }

  // ---- the dictionary --------------------------------------------------------------------------------

  ghost predicate PrintsAs(tree: Value, at: seq<Step>, p: string, x: real) {
    Render(at) == p && NumberAt(tree, at) == Some(x)
  }

  ghost predicate HasEntry(m: map<string, real>, p: string, x: real) {
    p in m && m[p] == x
  }

  /** The dictionary has a number under a path exactly when the tree has it at an address
      that prints as that path: integers and fractions, no booleans and nothing else. */
  lemma FlatteningTells(tree: Value, odd: set<string>)
    requires TreeOver(tree, odd) && OneOdd(odd)
    ensures forall p, x :: HasEntry(NumericPaths(tree), p, x) <==> exists at :: PrintsAs(tree, at, p, x)
  {
    FlatteningIsLossless(tree, odd);
    LeavesAreNumbers(tree, odd);
    var ls := Leaves(tree, []);
    hide NumberAt, Leaves, Render, NumericPaths, TreeOver, OneOdd;
    forall p, x ensures HasEntry(NumericPaths(tree), p, x) <==> exists at :: PrintsAs(tree, at, p, x) {
      if HasEntry(NumericPaths(tree), p, x) {
        var i :| 0 <= i < |ls| && Render(ls[i].at) == p;
        assert ls[i] == Leaf(ls[i].at, ls[i].number) && ls[i] in ls;
        assert PrintsAs(tree, ls[i].at, p, x);
      }
      if at :| PrintsAs(tree, at, p, x) {
        assert Leaf(at, x) in ls;
        var i :| 0 <= i < |ls| && ls[i] == Leaf(at, x);
      }
    }
  }
}
