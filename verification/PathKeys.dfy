/** Which keys a flattened tree may use without losing a number. */
module PathKeys {
  import opened Json
  import opened Text
  import opened Flatten

  // ---- kinds of keys -----------------------------------------------------------------------------

  function Bracketed(i: nat): string {
    "[" + Decimal(i) + "]"
  }

  ghost predicate IndexAfter(k: string, u: string, i: nat) {
    k == u + Bracketed(i)
  }

  /** A non-empty text followed by an index in brackets. */
  ghost predicate EndsWithIndex(k: string) {
    exists u: string, i: nat :: u != "" && IndexAfter(k, u, i)
  }

  /** A key is safe when it is not empty, has no dot, and is no text followed by an index. */
  ghost predicate SafeKey(k: string) {
    k != "" && '.' !in k && !EndsWithIndex(k)
  }

  ghost predicate TwoDotsAt(s: string, j: int) {
    0 <= j < |s| - 1 && s[j] == '.' && s[j + 1] == '.'
  }

  /** A key with a dot is still told from anything else when it starts with it, or has two
      dots in a row: safe keys print neither. */
  ghost predicate Recognisable(k: string) {
    k != "" && (k[0] == '.' || exists j :: TwoDotsAt(k, j))
  }

  ghost predicate Harmless(k: string) {
    SafeKey(k) || Recognisable(k)
  }

  /** At most one key besides the safe ones. */
  ghost predicate OneOdd(odd: set<string>) {
    && (forall k, l :: k in odd && l in odd ==> k == l)
    && (forall k :: k in odd ==> Harmless(k))
  }

  ghost predicate FitKey(k: string, odd: set<string>) {
    SafeKey(k) || k in odd
  }

  ghost predicate FitAddress(at: seq<Step>, odd: set<string>) {
    forall i :: 0 <= i < |at| && at[i].Key? ==> FitKey(at[i].key, odd)
  }

  // ---- an address read from the left ---------------------------------------------------------------

  function Piece(step: Step): string {
    match step
    case Key(k) => "." + k
    case Index(i) => Bracketed(i)
  }

  /** How steps print after a path that is not empty. */
  function Tail(at: seq<Step>): string {
    if at == [] then "" else Piece(at[0]) + Tail(at[1..])
  }

  lemma {:induction false} TailAppend(a: seq<Step>, b: seq<Step>)
    ensures Tail(a + b) == Tail(a) + Tail(b)
  {
    hide Piece;
    if a == [] {
      assert a + b == b;
    } else {
      assert (a + b)[0] == a[0] && (a + b)[1..] == a[1..] + b;
      TailAppend(a[1..], b);
    }
  }

  lemma TailOfOne(step: Step)
    ensures Tail([step]) == Piece(step)
  {
    hide Piece;
    assert [step][1..] == [];
  }

  ghost predicate KeysNonEmpty(at: seq<Step>) {
    forall i :: 0 <= i < |at| && at[i].Key? ==> at[i].key != ""
  }

  /** The first step prints without a dot. */
  function First(step: Step): string {
    match step
    case Key(k) => k
    case Index(i) => Bracketed(i)
  }

  lemma ExtendPrints(path: string, step: Step)
    ensures Extend("", step) == First(step)
    ensures path != "" ==> Extend(path, step) == path + Piece(step)
  {
    hide Decimal;
    if step.Key? {
      assert path + "." + step.key == path + ("." + step.key);
    } else {
      assert path + "[" + Decimal(step.i) + "]" == path + Bracketed(step.i);
      assert "" + "[" + Decimal(step.i) + "]" == Bracketed(step.i);
    }
  }

  lemma RenderOne(step: Step)
    ensures Render([step]) == First(step)
  {
    ExtendPrints("", step);
    assert [] + [step] == [step];
    RenderStep([], step);
    assert Render([]) == "";
    hide Extend, First;
  }

  lemma RenderMore(front: seq<Step>, last: Step)
    requires front != [] && Render(front) == First(front[0]) + Tail(front[1..]) && Render(front) != ""
    ensures Render(front + [last]) == First(front[0]) + Tail(front[1..] + [last])
  {
    hide *;
    RenderStep(front, last);
    ExtendPrints(Render(front), last);
    TailAppend(front[1..], [last]);
    TailOfOne(last);
    assert First(front[0]) + Tail(front[1..]) + Piece(last) == First(front[0]) + (Tail(front[1..]) + Piece(last));
  }

  lemma FirstNonEmpty(step: Step)
    requires step.Key? ==> step.key != ""
    ensures First(step) != ""
  {
  }

  lemma {:induction false} RenderFromLeft(at: seq<Step>)
    requires KeysNonEmpty(at) && at != []
    ensures Render(at) == First(at[0]) + Tail(at[1..]) && Render(at) != ""
  {
    hide Render, First, Tail;
    var n := |at| - 1;
    var front, last := at[..n], at[n];
    assert at == front + [last];
    FirstNonEmpty(at[0]);
    if n == 0 {
      RenderOne(last);
      TailStarts(at[1..]);
    } else {
      RenderFromLeft(front);
      RenderMore(front, last);
      assert at[1..] == front[1..] + [last];
    }
  }

  // ---- reading it is unambiguous --------------------------------------------------------------------

  lemma TailStarts(at: seq<Step>)
    ensures Tail(at) == "" <==> at == []
    ensures at != [] ==> Tail(at)[0] == if at[0].Key? then '.' else '['
  {
  }

  /** Of two ways to cut a text in two, the later cut lies behind the earlier one. */
  lemma Overlap(a: string, s: string, b: string, t: string)
    requires a + s == b + t && |a| <= |b|
    ensures b == a + b[|a|..] && s == b[|a|..] + t
  {
    var all := a + s;
    assert all[..|a|] == a && b[..|a|] == (b + t)[..|a|];
    assert all[|a|..] == s && (b + t)[|a|..] == b[|a|..] + t;
  }

  lemma InBrackets(i: nat)
    ensures var piece := Bracketed(i);
      && |piece| >= 3 && piece[0] == '[' && (forall j :: 0 <= j < |piece| ==> piece[j] != '.')
      && forall j :: 0 < j < |piece| ==> piece[j] != '['
  {
    var digits, piece := Decimal(i), Bracketed(i);
    hide Decimal;
    assert |piece| == |digits| + 2 && piece[|piece| - 1] == ']';
    forall j | 0 < j < |piece| - 1 ensures IsDigit(piece[j]) {
      assert piece[j] == digits[j - 1] && digits[j - 1] in digits;
    }
  }

  ghost predicate IndexAtEnd(w: string) {
    exists v: string, i: nat :: IndexAfter(w, v, i)
  }

  lemma IndexPrepended(v: string, i: nat, w: string)
    ensures IndexAtEnd(Bracketed(i))
    ensures IndexAfter(w, v, i) ==> forall u: string :: IndexAfter(u + w, u + v, i)
  {
    assert Bracketed(i) == "" + Bracketed(i);
    assert IndexAfter(Bracketed(i), "", i);
    hide Bracketed;
    forall u: string ensures IndexAfter(w, v, i) ==> IndexAfter(u + w, u + v, i) {
      assert u + (v + Bracketed(i)) == (u + v) + Bracketed(i);
    }
  }

  /** What is cut off the front of a tail, up to where another tail starts, and has no dot,
      ends with an index. */
  lemma {:induction false} CutAtIndex(a: seq<Step>, w: string, b: seq<Step>)
    requires Tail(a) == w + Tail(b) && w != "" && '.' !in w
    ensures IndexAtEnd(w)
  {
    TailStarts(a);
    TailStarts(b);
    assert Tail(a)[0] == w[0];
    var i, rest := a[0].i, Tail(a[1..]);
    var piece := Bracketed(i);
    assert Tail(a) == piece + rest;
    IndexPrepended("", i, "");
    hide Tail, Bracketed, IndexAfter, IndexAtEnd;
    if |w| < |piece| {
      Overlap(w, Tail(b), piece, rest);
      assert Tail(b)[0] == piece[|w|];
      InBrackets(i);
    } else {
      InBrackets(i);
      Overlap(piece, rest, w, Tail(b));
      var more := w[|piece|..];
      if more == "" {
        assert w == piece;
      } else {
        CutAtIndex(a[1..], more, b);
        AtEndPrepended(piece, more);
      }
    }
  }

  lemma AtEndPrepended(u: string, w: string)
    requires IndexAtEnd(w)
    ensures IndexAtEnd(u + w)
    ensures u != "" ==> EndsWithIndex(u + w)
  {
    hide IndexAfter;
    var v: string, i: nat :| IndexAfter(w, v, i);
    IndexPrepended(v, i, w);
    assert IndexAfter(u + w, u + v, i);
  }

  /** With one odd key, that does not start with a dot, two dots in a row come no earlier
      than they do in that key. */
  lemma {:induction false} NoDotsEarly(at: seq<Step>, odd: string, f: nat, g: nat)
    requires odd != "" && odd[0] != '.' && TwoDotsAt(odd, f) && forall j :: 0 <= j < f ==> !TwoDotsAt(odd, j)
    requires forall i :: 0 <= i < |at| && at[i].Key? ==> SafeKey(at[i].key) || at[i].key == odd
    requires g <= f
    ensures !TwoDotsAt(Tail(at), g)
  {
    if at != [] {
      var piece, rest := Piece(at[0]), Tail(at[1..]);
      assert Tail(at) == piece + rest;
      if TwoDotsAt(Tail(at), g) {
        if g < |piece| {
          NotInPiece(at[0], rest, odd, f, g);
        } else {
          assert TwoDotsAt(rest, g - |piece|);
          NoDotsEarly(at[1..], odd, f, g - |piece|);
        }
      }
    }
  }

  lemma NotInPiece(step: Step, rest: string, odd: string, f: nat, g: nat)
    requires odd != "" && odd[0] != '.' && TwoDotsAt(odd, f) && forall j :: 0 <= j < f ==> !TwoDotsAt(odd, j)
    requires step.Key? ==> SafeKey(step.key) || step.key == odd
    requires g <= f && g < |Piece(step)|
    ensures !TwoDotsAt(Piece(step) + rest, g)
  {
    var s := Piece(step) + rest;
    if step.Index? {
      InBrackets(step.i);
      assert s[g] == Piece(step)[g];
    } else if step.key == odd {
      assert |Piece(step)| == |odd| + 1;
      if g > 0 {
        assert s[g] == odd[g - 1] && s[g + 1] == odd[g];
        assert !TwoDotsAt(odd, g - 1);
      } else {
        assert s[1] == odd[0];
      }
    } else {
      assert g > 0 ==> s[g] == step.key[g - 1];
      assert g == 0 ==> s[1] == step.key[0];
    }
  }

  /** No key is continued by a tail to look like a longer key. */
  lemma NoLongerKey(x: string, a: seq<Step>, y: string, b: seq<Step>, odd: set<string>)
    requires OneOdd(odd) && FitKey(x, odd) && FitKey(y, odd) && FitAddress(a, odd)
    requires x + Tail(a) == y + Tail(b)
    ensures |x| >= |y|
  {
    hide Tail, SafeKey, Harmless, FitAddress;
    if |x| < |y| {
      var w := y[|x|..];
      Overlap(x, Tail(a), y, Tail(b));
      if SafeKey(y) {
        CutsNoSafeKey(x, a, y, w, b, odd);
      } else {
        OddIsNoContinuation(x, a, y, w, b, odd);
      }
    }
  }

  lemma CutsNoSafeKey(x: string, a: seq<Step>, y: string, w: string, b: seq<Step>, odd: set<string>)
    requires OneOdd(odd) && FitKey(x, odd) && y == x + w && w != "" && Tail(a) == w + Tail(b)
    ensures !SafeKey(y)
  {
    hide Tail, EndsWithIndex, IndexAtEnd;
    if SafeKey(y) {
      assert x != "" && forall c :: c in w ==> c in y;
      CutAtIndex(a, w, b);
      AtEndPrepended(x, w);
    }
  }

  lemma FirstTwoDots(k: string, j: nat) returns (f: nat)
    requires TwoDotsAt(k, j)
    ensures TwoDotsAt(k, f) && forall i :: 0 <= i < f ==> !TwoDotsAt(k, i)
  {
    f := 0;
    while !TwoDotsAt(k, f)
      invariant f <= j && forall i :: 0 <= i < f ==> !TwoDotsAt(k, i)
      decreases j - f
    {
      f := f + 1;
    }
  }

  lemma OddIsNoContinuation(x: string, a: seq<Step>, y: string, w: string, b: seq<Step>, odd: set<string>)
    requires OneOdd(odd) && FitKey(x, odd) && FitAddress(a, odd) && y in odd && !SafeKey(y)
    requires y == x + w && w != ""
    ensures Tail(a) != w + Tail(b)
  {
    hide Tail, EndsWithIndex;
    assert x != y && SafeKey(x) && y[0] == x[0];
    var j :| TwoDotsAt(y, j);
    var f := FirstTwoDots(y, j);
    assert x[|x| - 1] != '.' && forall i :: 0 <= i < |x| ==> y[i] == x[i] && x[i] != '.';
    assert f >= |x|;
    SameDots(x, w, f, Tail(b));
    NoDotsEarly(a, y, f, f - |x|);
  }

  lemma SameDots(x: string, w: string, f: int, t: string)
    requires TwoDotsAt(x + w, f) && f >= |x|
    ensures TwoDotsAt(w + t, f - |x|)
  {
    assert (x + w)[f] == w[f - |x|] && (x + w)[f + 1] == w[f - |x| + 1];
  }

  lemma KeyFirst(x: string, a: seq<Step>, y: string, b: seq<Step>, odd: set<string>)
    requires OneOdd(odd) && FitKey(x, odd) && FitKey(y, odd) && FitAddress(a, odd) && FitAddress(b, odd)
    requires x + Tail(a) == y + Tail(b)
    ensures x == y && Tail(a) == Tail(b)
  {
    NoLongerKey(x, a, y, b, odd);
    NoLongerKey(y, b, x, a, odd);
    hide Tail;
    assert (x + Tail(a))[..|x|] == x && (y + Tail(b))[..|y|] == y;
    assert (x + Tail(a))[|x|..] == Tail(a) && (y + Tail(b))[|y|..] == Tail(b);
  }

  lemma NoBracketInside(i: nat)
    ensures ']' !in Decimal(i)
  {
  }

  lemma IndexFirst(i: nat, s: string, j: nat, t: string)
    requires Bracketed(i) + s == Bracketed(j) + t
    ensures i == j && s == t
  {
    hide Decimal;
    NoBracketInside(i);
    NoBracketInside(j);
    assert (Bracketed(i) + s)[1..] == Decimal(i) + [']'] + s;
    assert (Bracketed(j) + t)[1..] == Decimal(j) + [']'] + t;
    SplitFirst(']', Decimal(i), s, Decimal(j), t);
    DecimalInjective(i, j);
  }

  lemma PieceFirst(x: Step, s: string, y: Step, t: string)
    requires x.Key? && y.Key? && Piece(x) + s == Piece(y) + t
    ensures x.key + s == y.key + t
  {
    assert Piece(x) == "." + x.key && Piece(y) == "." + y.key;
    hide Piece;
    BehindDot(x.key, s);
    BehindDot(y.key, t);
  }

  lemma BehindDot(k: string, s: string)
    ensures ("." + k + s)[1..] == k + s && "." + k + s == "." + (k + s)
  {
  }

  lemma {:induction false} TailInjective(a: seq<Step>, b: seq<Step>, odd: set<string>)
    requires OneOdd(odd) && FitAddress(a, odd) && FitAddress(b, odd)
    requires Tail(a) == Tail(b)
    ensures a == b
  {
    TailStarts(a);
    TailStarts(b);
    if a != [] {
      var s, t := Tail(a[1..]), Tail(b[1..]);
      assert Tail(a) == Piece(a[0]) + s && Tail(b) == Piece(b[0]) + t;
      hide Tail, Bracketed, SafeKey, OneOdd;
      if a[0].Index? {
        IndexFirst(a[0].i, s, b[0].i, t);
      } else {
        PieceFirst(a[0], s, b[0], t);
        KeyFirst(a[0].key, a[1..], b[0].key, b[1..], odd);
      }
      TailInjective(a[1..], b[1..], odd);
      assert a == [a[0]] + a[1..] && b == [b[0]] + b[1..];
    }
  }

  /** Both addresses start at the same node. */
  ghost predicate SameStart(a: seq<Step>, b: seq<Step>) {
    (a == [] <==> b == []) && (a != [] && b != [] ==> (a[0].Key? <==> b[0].Key?))
  }

  /** Distinct addresses in one tree are printed differently, when all keys but at most one
      are safe and that one is harmless. */
  lemma RenderInjective(a: seq<Step>, b: seq<Step>, odd: set<string>)
    requires OneOdd(odd) && FitAddress(a, odd) && FitAddress(b, odd) && SameStart(a, b)
    requires Render(a) == Render(b)
    ensures a == b
  {
    if a != [] {
      RenderFromLeft(a);
      RenderFromLeft(b);
      hide Tail, Bracketed, Render, OneOdd;
      if a[0].Key? {
        KeyFirst(a[0].key, a[1..], b[0].key, b[1..], odd);
      } else {
        IndexFirst(a[0].i, Tail(a[1..]), b[0].i, Tail(b[1..]));
      }
      TailInjective(a[1..], b[1..], odd);
      assert a == [a[0]] + a[1..] && b == [b[0]] + b[1..];
    }
  }

  // ---- with harmless keys the flattener loses nothing -------------------------------------------------

  /** Objects hold a key once, and every key is safe or the odd one. */
  ghost predicate TreeOver(node: Value, odd: set<string>)
    decreases node, 0
  {
    match node
    case Obj(fields) => DistinctKeys(fields) && FieldsOver(fields, odd)
    case Arr(items) => ItemsOver(items, odd)
    case _ => true
  }

  ghost predicate FieldsOver(fields: seq<Field>, odd: set<string>)
    decreases fields, 0
  {
    fields == [] || (FitKey(fields[0].key, odd) && TreeOver(fields[0].value, odd) && FieldsOver(fields[1..], odd))
  }

  ghost predicate ItemsOver(items: seq<Value>, odd: set<string>)
    decreases items, 0
  {
    items == [] || (TreeOver(items[0], odd) && ItemsOver(items[1..], odd))
  }

  ghost predicate DistinctLeaves(ls: seq<Leaf>) {
    forall i, j :: 0 <= i < j < |ls| ==> ls[i].at != ls[j].at
  }

  lemma FitLonger(at: seq<Step>, step: Step, odd: set<string>)
    requires FitAddress(at, odd) && (step.Key? ==> FitKey(step.key, odd))
    ensures FitAddress(at + [step], odd)
  {
    hide FitKey;
  }

  /** The leaves of a tree lie below its address and are pairwise distinct. */
  lemma {:induction false} LeavesDistinct(node: Value, at: seq<Step>, odd: set<string>)
    requires TreeOver(node, odd) && FitAddress(at, odd)
    ensures DistinctLeaves(Leaves(node, at))
    ensures forall l :: l in Leaves(node, at) ==> at <= l.at && FitAddress(l.at, odd)
    decreases node, 1
  {
    hide FitKey, FitAddress;
    match node
    case Obj(fields) => FieldLeavesDistinct(fields, at, odd);
    case Arr(items) => ItemLeavesDistinct(items, at, 0, odd);
    case _ =>
  }

  lemma {:induction false} FieldLeavesDistinct(fields: seq<Field>, at: seq<Step>, odd: set<string>)
    requires FieldsOver(fields, odd) && DistinctKeys(fields) && FitAddress(at, odd)
    ensures DistinctLeaves(FieldLeaves(fields, at))
    ensures forall l :: l in FieldLeaves(fields, at) ==>
      at < l.at && FitAddress(l.at, odd) && l.at[|at|].Key? && exists f :: f in fields && l.at[|at|].key == f.key
    decreases fields, 0
  {
    hide FitKey, FitAddress;
    if fields != [] {
      var here := at + [Key(fields[0].key)];
      FitLonger(at, Key(fields[0].key), odd);
      LeavesDistinct(fields[0].value, here, odd);
      FieldLeavesDistinct(fields[1..], at, odd);
      var first, rest := Leaves(fields[0].value, here), FieldLeaves(fields[1..], at);
      forall l | l in first ensures at < l.at && l.at[|at|] == Key(fields[0].key) {
        assert l.at[..|here|] == here;
      }
      forall l | l in rest ensures l.at[|at|].key != fields[0].key {
      }
    }
  }

  lemma {:induction false} ItemLeavesDistinct(items: seq<Value>, at: seq<Step>, from: nat, odd: set<string>)
    requires ItemsOver(items, odd) && FitAddress(at, odd)
    ensures DistinctLeaves(ItemLeaves(items, at, from))
    ensures forall l :: l in ItemLeaves(items, at, from) ==>
      at < l.at && FitAddress(l.at, odd) && l.at[|at|].Index? && l.at[|at|].i >= from
    decreases items, 0
  {
    hide FitKey, FitAddress;
    if items != [] {
      var here := at + [Index(from)];
      FitLonger(at, Index(from), odd);
      LeavesDistinct(items[0], here, odd);
      ItemLeavesDistinct(items[1..], at, from + 1, odd);
      var first := Leaves(items[0], here);
      forall l | l in first ensures at < l.at && l.at[|at|] == Index(from) {
        assert l.at[..|here|] == here;
      }
    }
  }

  /** All leaves of one tree start at its root. */
  lemma LeavesStartAlike(output: Value, odd: set<string>)
    requires TreeOver(output, odd)
    ensures forall l, m :: l in Leaves(output, []) && m in Leaves(output, []) ==> SameStart(l.at, m.at)
  {
    match output
    case Obj(fields) => FieldLeavesDistinct(fields, [], odd);
    case Arr(items) => ItemLeavesDistinct(items, [], 0, odd);
    case _ =>
  }

  lemma LeavesPrintApart(output: Value, odd: set<string>)
    requires OneOdd(odd) && TreeOver(output, odd)
    ensures var ls := Leaves(output, []); forall i, j :: 0 <= i < j < |ls| ==> Render(ls[i].at) != Render(ls[j].at)
  {
    LeavesDistinct(output, [], odd);
    LeavesStartAlike(output, odd);
    hide Render, Leaves, TreeOver, OneOdd, FitAddress, SameStart;
    var ls := Leaves(output, []);
    forall i, j | 0 <= i < j < |ls| ensures Render(ls[i].at) != Render(ls[j].at) {
      if Render(ls[i].at) == Render(ls[j].at) {
        RenderInjective(ls[i].at, ls[j].at, odd);
      }
    }
  }

  /** When all keys but at most one are safe and that one is harmless, the flattened map has
      exactly one entry per numeric leaf: its domain is the set of printed addresses and
      each holds that leaf's own number. */
  lemma FlatteningIsLossless(output: Value, odd: set<string>)
    requires OneOdd(odd) && TreeOver(output, odd)
    ensures var ls, m := Leaves(output, []), NumericPaths(output);
      && |m| == |ls|
      && (forall i :: 0 <= i < |ls| ==> Render(ls[i].at) in m && m[Render(ls[i].at)] == ls[i].number)
      && (forall p :: p in m ==> exists i :: 0 <= i < |ls| && Render(ls[i].at) == p)
      && (forall i, j :: 0 <= i < j < |ls| ==> Render(ls[i].at) != Render(ls[j].at))
  {
    var ls, es := Leaves(output, []), Entries(output, "");
    assert Render([]) == "";
    hide Render, Leaves, Entries, Written, TreeOver, OneOdd;
    EntriesAreLeaves(output, []);
    LeavesPrintApart(output, odd);
    assert forall i :: 0 <= i < |ls| ==> es[i] == Entry(Render(ls[i].at), ls[i].number);
    hide Printed;
    WrittenSize(map[], es);
    forall i | 0 <= i < |ls|
      ensures Render(ls[i].at) in NumericPaths(output) && NumericPaths(output)[Render(ls[i].at)] == ls[i].number {
      WrittenValue(map[], es, i);
    }
    forall p | p in NumericPaths(output) ensures exists i :: 0 <= i < |ls| && Render(ls[i].at) == p {
      WrittenDomain(map[], es, p);
    }
  }

  // ---- every other key loses a number in some tree ------------------------------------------------------

  ghost predicate LosesANumber(tree: Value) {
    |NumericPaths(tree)| < |Leaves(tree, [])|
  }

  lemma TwoLeavesCollide(tree: Value, a: seq<Step>, x: real, b: seq<Step>, y: real)
    requires Leaves(tree, []) == [Leaf(a, x), Leaf(b, y)] && Render(a) == Render(b)
    ensures LosesANumber(tree)
  {
    var p := Render(a);
    assert Render([]) == "";
    EntriesAreLeaves(tree, []);
    var es := Entries(tree, "");
    assert es == [Entry(p, x), Entry(p, y)];
    hide Entries, Render, Leaves;
    assert es[1..] == [Entry(p, y)] && es[1..][1..] == [];
    var m: map<string, real> := map[];
    assert Written(m, es) == Written(m[p := x], es[1..]) == Written(m[p := x][p := y], es[1..][1..]);
    assert NumericPaths(tree) == map[p := y];
  }

  // an address made of safe keys for a text that looks like one

  /** Trailing indexes taken off a text without dots. */
  ghost function Stripped(p: string): (at: seq<Step>)
    requires p != "" && '.' !in p
    ensures at != [] && at[0].Key? && (forall i :: 0 < i < |at| ==> at[i].Index?)
    ensures FitAddress(at, {})
    decreases |p|
  {
    if EndsWithIndex(p) then
      var u: string, i: nat :| u != "" && IndexAfter(p, u, i);
      assert |u| < |p| && forall c :: c in u ==> c in p;
      Stripped(u) + [Index(i)]
    else [Key(p)]
  }

  /** How an address that starts with a key prints. */
  function Print(at: seq<Step>): string
    requires at != []
  {
    First(at[0]) + Tail(at[1..])
  }

  lemma PrintAppend(a: seq<Step>, b: seq<Step>)
    requires a != []
    ensures Print(a + b) == Print(a) + Tail(b)
  {
    assert (a + b)[0] == a[0] && (a + b)[1..] == a[1..] + b;
    TailAppend(a[1..], b);
    hide Tail, First;
    assert First(a[0]) + (Tail(a[1..]) + Tail(b)) == First(a[0]) + Tail(a[1..]) + Tail(b);
  }

  lemma TailOfKeyFirst(b: seq<Step>)
    requires b != [] && b[0].Key?
    ensures Tail(b) == "." + Print(b)
  {
    assert Tail(b) == Piece(b[0]) + Tail(b[1..]);
    assert Piece(b[0]) == "." + First(b[0]);
    hide *;
    BehindDot(First(b[0]), Tail(b[1..]));
    assert Print(b) == First(b[0]) + Tail(b[1..]) by { PrintIs(b); }
  }

  lemma PrintIs(at: seq<Step>)
    requires at != []
    ensures Print(at) == First(at[0]) + Tail(at[1..])
  {
  }

  lemma {:induction false} StrippedPrints(p: string)
    requires p != "" && '.' !in p
    ensures Print(Stripped(p)) == p
    decreases |p|
  {
    if EndsWithIndex(p) {
      var at := Stripped(p);
      var u: string, i: nat :| u != "" && IndexAfter(p, u, i) && '.' !in u && |u| < |p|
          && at == Stripped(u) + [Index(i)];
      StrippedPrints(u);
      PrintAppend(Stripped(u), [Index(i)]);
      TailOfOne(Index(i));
    } else {
      assert Stripped(p)[1..] == [];
    }
  }

  /** Looks like the print of an address: no part between dots is empty. */
  ghost predicate Regular(s: string) {
    s != "" && s[0] != '.' && s[|s| - 1] != '.' && forall j :: !TwoDotsAt(s, j)
  }

  lemma FirstDot(s: string) returns (n: nat)
    requires '.' in s
    ensures n < |s| && s[n] == '.' && '.' !in s[..n]
  {
    n := 0;
    while s[n] != '.'
      invariant n < |s| && '.' !in s[..n] && exists m :: n <= m < |s| && s[m] == '.'
      decreases |s| - n
    {
      assert s[..n + 1] == s[..n] + [s[n]];
      n := n + 1;
    }
  }

  lemma RegularRest(s: string, n: nat)
    requires Regular(s) && n < |s| && s[n] == '.'
    ensures n > 0 && n + 1 < |s| && Regular(s[n + 1..])
  {
    assert !TwoDotsAt(s, n);
    var rest := s[n + 1..];
    forall j ensures !TwoDotsAt(rest, j) {
      if 0 <= j < |rest| - 1 {
        assert !TwoDotsAt(s, n + 1 + j);
      }
    }
  }

  /** There is an address of safe keys that prints like any regular text. */
  lemma {:induction false} SafeAddressFor(s: string) returns (at: seq<Step>)
    requires Regular(s)
    ensures at != [] && at[0].Key? && FitAddress(at, {}) && Print(at) == s
    decreases |s|
  {
    hide Regular, Stripped, FitAddress, Print;
    if '.' in s {
      var n := FirstDot(s);
      RegularRest(s, n);
      var rest := SafeAddressFor(s[n + 1..]);
      StrippedPrints(s[..n]);
      at := Stripped(s[..n]) + rest;
      Joined(Stripped(s[..n]), rest);
      assert s == s[..n] + "." + s[n + 1..];
    } else {
      NotEmpty(s);
      at := Stripped(s);
      StrippedPrints(s);
    }
  }

  lemma NotEmpty(s: string)
    requires Regular(s)
    ensures s != ""
  {
  }

  lemma Joined(a: seq<Step>, b: seq<Step>)
    requires a != [] && b != [] && b[0].Key? && FitAddress(a, {}) && FitAddress(b, {})
    ensures Print(a + b) == Print(a) + "." + Print(b)
    ensures FitAddress(a + b, {})
  {
    hide Print, Tail, FitKey;
    PrintAppend(a, b);
    TailOfKeyFirst(b);
    assert Print(a) + "." + Print(b) == Print(a) + ("." + Print(b));
  }

  // a tree with one number at a given address

  function Nulls(n: nat): (items: seq<Value>)
    ensures |items| == n
  {
    if n == 0 then [] else [Null] + Nulls(n - 1)
  }

  function Nest(at: seq<Step>): Value {
    if at == [] then Int(2)
    else match at[0]
      case Key(k) => Obj([Field(k, Nest(at[1..]))])
      case Index(i) => Arr(Nulls(i) + [Nest(at[1..])])
  }

  lemma {:induction false} LeavesBehindNulls(n: nat, v: Value, pre: seq<Step>, from: nat)
    ensures ItemLeaves(Nulls(n) + [v], pre, from) == Leaves(v, pre + [Index(from + n)])
  {
    hide Leaves;
    if n == 0 {
      assert (Nulls(0) + [v])[1..] == [];
      assert Nulls(0) + [v] == [v];
    } else {
      assert (Nulls(n) + [v])[0] == Null && (Nulls(n) + [v])[1..] == Nulls(n - 1) + [v];
      LeavesBehindNulls(n - 1, v, pre, from + 1);
      NullHasNoLeaf(pre + [Index(from)]);
    }
  }

  lemma NullHasNoLeaf(at: seq<Step>)
    ensures Leaves(Null, at) == []
  {
  }

  lemma {:induction false} NestLeaves(at: seq<Step>, pre: seq<Step>)
    ensures Leaves(Nest(at), pre) == [Leaf(pre + at, 2.0)]
    decreases |at|
  {
    if at == [] {
      assert pre + at == pre;
    } else {
      assert pre + [at[0]] + at[1..] == pre + at;
      NestLeaves(at[1..], pre + [at[0]]);
      match at[0]
      case Key(k) => OneFieldLeaves(Field(k, Nest(at[1..])), pre);
      case Index(i) => LeavesBehindNulls(i, Nest(at[1..]), pre, 0);
    }
  }

  lemma OneFieldLeaves(f: Field, pre: seq<Step>)
    ensures FieldLeaves([f], pre) == Leaves(f.value, pre + [Key(f.key)])
  {
    assert [f][1..] == [];
  }

  lemma {:induction false} NullsOver(n: nat, v: Value, odd: set<string>)
    requires TreeOver(v, odd)
    ensures ItemsOver(Nulls(n) + [v], odd)
  {
    if n == 0 {
      assert (Nulls(0) + [v]) == [v] && [v][1..] == [];
    } else {
      assert (Nulls(n) + [v])[0] == Null && (Nulls(n) + [v])[1..] == Nulls(n - 1) + [v];
      NullsOver(n - 1, v, odd);
    }
  }

  lemma {:induction false} NestOver(at: seq<Step>, odd: set<string>)
    requires FitAddress(at, {})
    ensures TreeOver(Nest(at), odd)
  {
    if at != [] {
      NestOver(at[1..], odd);
      match at[0]
      case Key(k) => assert [Field(k, Nest(at[1..]))][1..] == [];
      case Index(i) => NullsOver(i, Nest(at[1..]), odd);
    }
  }

  /** `{k: first, q: under}`. */
  function Pair(k: string, first: Value, q: string, under: Value): Value {
    Obj([Field(k, first), Field(q, under)])
  }

  lemma PairLeaves(k: string, first: Value, q: string, under: Value)
    ensures Leaves(Pair(k, first, q, under), []) == Leaves(first, [Key(k)]) + Leaves(under, [Key(q)])
  {
    var f, g := Field(k, first), Field(q, under);
    assert [f, g][1..] == [g];
    OneFieldLeaves(g, []);
    assert [] + [Key(k)] == [Key(k)] && [] + [Key(q)] == [Key(q)];
  }

  lemma PairOver(k: string, first: Value, q: string, under: Value)
    requires SafeKey(q) && k != q && TreeOver(first, {k}) && TreeOver(under, {k})
    ensures TreeOver(Pair(k, first, q, under), {k})
  {
    var f, g := Field(k, first), Field(q, under);
    assert [f, g][1..] == [g] && [g][1..] == [];
    assert FieldsOver([g], {k}) && FitKey(k, {k}) && FieldsOver([f, g], {k});
  }

  /** Both print as "a". */
  lemma EmptyKeyVanishes()
    ensures Render([Key(""), Key("a")]) == Render([Key("a")])
  {
    hide *;
    assert [Key(""), Key("a")] == [Key("")] + [Key("a")];
    RenderStep([Key("")], Key("a"));
    RenderOne(Key(""));
    RenderOne(Key("a"));
    assert Extend(First(Key("")), Key("a")) == First(Key("a")) by { BlankPrints(); }
  }

  lemma BlankPrints()
    ensures Extend(First(Key("")), Key("a")) == First(Key("a"))
  {
  }

  lemma EmptyKeyTree(f: Field)
    requires f == Field("a", Int(1))
    ensures TreeOver(Pair("", Obj([f]), "a", Int(2)), {""})
    ensures Leaves(Pair("", Obj([f]), "a", Int(2)), []) == [Leaf([Key(""), Key("a")], 1.0), Leaf([Key("a")], 2.0)]
  {
    assert SafeKey("a") by { ShortIsNoIndex("a"); }
    hide SafeKey;
    assert TreeOver(Obj([f]), {""}) by { assert [f][1..] == [] && FieldsOver([f], {""}); }
    PairOver("", Obj([f]), "a", Int(2));
    PairLeaves("", Obj([f]), "a", Int(2));
    assert [Key("")] + [Key("a")] == [Key(""), Key("a")];
    OneFieldLeaves(f, [Key("")]);
    hide TreeOver, Pair;
  }

  lemma EmptyKeyLoses() returns (tree: Value)
    ensures TreeOver(tree, {""}) && LosesANumber(tree)
  {
    hide *;
    tree := Pair("", Obj([Field("a", Int(1))]), "a", Int(2));
    EmptyKeyTree(Field("a", Int(1)));
    EmptyKeyVanishes();
    assert [Key(""), Key("a")] != [Key("a")];
    TwoLeavesCollide(tree, [Key(""), Key("a")], 1.0, [Key("a")], 2.0);
  }

  lemma ShortIsNoIndex(k: string)
    requires |k| < 4
    ensures !EndsWithIndex(k)
  {
    forall u: string, i: nat | u != "" ensures !IndexAfter(k, u, i) {
      InBrackets(i);
    }
  }

  /** The tree `{k: 1, ...}`, or `{k: [1], ...}` when k ends with a dot, beside an address
      of safe keys that prints the same. */
  lemma RegularKeyLoses(k: string) returns (tree: Value)
    requires k != "" && !Harmless(k)
    ensures TreeOver(tree, {k}) && LosesANumber(tree)
  {
    var trailing := k[|k| - 1] == '.';
    var own := if trailing then [Key(k), Index(0)] else [Key(k)];
    var first := if trailing then Arr([Int(1)]) else Int(1);
    var text := if trailing then k + Bracketed(0) else k;
    RegularText(k);
    var at := SafeAddressFor(text);
    var q, rest := at[0].key, at[1..];
    assert at == [Key(q)] + rest && SafeKey(q);
    tree := Pair(k, first, q, Nest(rest));
    NestOver(rest, {k});
    assert [Int(1)][1..] == [];
    PairOver(k, first, q, Nest(rest));
    PairLeaves(k, first, q, Nest(rest));
    NestLeaves(rest, [Key(q)]);
    assert Leaves(first, [Key(k)]) == [Leaf(own, 1.0)] by { FirstLeaf(k); }
    RenderFromLeft(at);
    RenderOwn(k);
    TwoLeavesCollide(tree, own, 1.0, at, 2.0);
  }

  lemma FirstLeaf(k: string)
    ensures Leaves(Int(1), [Key(k)]) == [Leaf([Key(k)], 1.0)]
    ensures Leaves(Arr([Int(1)]), [Key(k)]) == [Leaf([Key(k), Index(0)], 1.0)]
  {
    assert [Int(1)][1..] == [];
    assert [Key(k)] + [Index(0)] == [Key(k), Index(0)];
    assert ItemLeaves([Int(1)], [Key(k)], 0) == Leaves(Int(1), [Key(k), Index(0)]);
  }

  lemma RenderOwn(k: string)
    requires k != ""
    ensures Render([Key(k)]) == k && Render([Key(k), Index(0)]) == k + Bracketed(0)
  {
    RenderFromLeft([Key(k)]);
    RenderFromLeft([Key(k), Index(0)]);
    assert [Key(k)][1..] == [] && [Key(k), Index(0)][1..] == [Index(0)];
    TailOfOne(Index(0));
  }

  lemma RegularText(k: string)
    requires k != "" && !Harmless(k)
    ensures Regular(if k[|k| - 1] == '.' then k + Bracketed(0) else k)
  {
    hide SafeKey;
    if k[|k| - 1] == '.' {
      InBrackets(0);
      var text := k + Bracketed(0);
      assert text[|k|] == '[' && text[|text| - 1] == Bracketed(0)[|Bracketed(0)| - 1];
      forall j ensures !TwoDotsAt(text, j) {
        if 0 <= j < |text| - 1 {
          assert j + 1 < |k| ==> text[j] == k[j] && text[j + 1] == k[j + 1] && !TwoDotsAt(k, j);
          assert j >= |k| ==> text[j] == Bracketed(0)[j - |k|];
          assert j + 1 >= |k| ==> text[j + 1] == Bracketed(0)[j + 1 - |k|];
        }
      }
    }
  }

  /** The rule is exact: a key can make a number get lost, in a tree whose other keys are
      all safe, if and only if it is not harmless. */
  lemma KeyRuleIsExact(k: string)
    ensures (exists tree :: TreeOver(tree, {k}) && LosesANumber(tree)) <==> !Harmless(k)
  {
    hide TreeOver, LosesANumber, Harmless;
    if Harmless(k) {
      forall tree | TreeOver(tree, {k}) ensures !LosesANumber(tree) {
        HarmlessLosesNothing(tree, k);
      }
    } else if k == "" {
      var tree := EmptyKeyLoses();
    } else {
      var tree := RegularKeyLoses(k);
    }
  }

  lemma HarmlessLosesNothing(tree: Value, k: string)
    requires Harmless(k) && TreeOver(tree, {k})
    ensures !LosesANumber(tree)
  {
    FlatteningIsLossless(tree, {k});
  }

  /** Both print as "a..b". */
  lemma TwoOddKeysVanish()
    ensures Render([Key("a..b")]) == Render([Key("a"), Key(".b")])
  {
    hide *;
    assert [Key("a"), Key(".b")] == [Key("a")] + [Key(".b")];
    RenderStep([Key("a")], Key(".b"));
    RenderOne(Key("a"));
    RenderOne(Key("a..b"));
    assert Extend(First(Key("a")), Key(".b")) == First(Key("a..b")) by { OddPrints(); }
  }

  lemma OddPrints()
    ensures Extend(First(Key("a")), Key(".b")) == First(Key("a..b"))
  {
    assert "a" + "." + ".b" == "a..b";
  }

  lemma TwoOddTree(f: Field)
    requires f == Field(".b", Int(2))
    ensures TreeOver(Pair("a..b", Int(1), "a", Obj([f])), {"a..b", ".b"})
  {
    assert SafeKey("a") by { ShortIsNoIndex("a"); }
    hide SafeKey;
    var odd := {"a..b", ".b"};
    var g, h := Field("a..b", Int(1)), Field("a", Obj([f]));
    assert [f][1..] == [] && FieldsOver([f], odd) && TreeOver(h.value, odd);
    assert [g, h][1..] == [h] && [h][1..] == [] && FieldsOver([h], odd) && FieldsOver([g, h], odd);
    assert g.key != h.key && DistinctKeys([g, h]);
  }

  lemma TwoOddLeaves(f: Field)
    requires f == Field(".b", Int(2))
    ensures Leaves(Pair("a..b", Int(1), "a", Obj([f])), []) ==
      [Leaf([Key("a..b")], 1.0), Leaf([Key("a"), Key(".b")], 2.0)]
  {
    PairLeaves("a..b", Int(1), "a", Obj([f]));
    OneFieldLeaves(f, [Key("a")]);
    assert [Key("a")] + [Key(".b")] == [Key("a"), Key(".b")];
    FirstLeaf("a..b");
  }

  lemma TheyAreRecognisable()
    ensures Recognisable("a..b") && Recognisable(".b")
  {
    assert TwoDotsAt("a..b", 1);
  }

  /** Two keys that are harmless each for itself can still collide with one another. */
  lemma TwoOddKeysLose() returns (tree: Value)
    ensures Recognisable("a..b") && Recognisable(".b") && TreeOver(tree, {"a..b", ".b"}) && LosesANumber(tree)
  {
    hide *;
    var f := Field(".b", Int(2));
    tree := Pair("a..b", Int(1), "a", Obj([f]));
    TheyAreRecognisable();
    TwoOddTree(f);
    TwoOddLeaves(f);
    TwoOddKeysVanish();
    assert [Key("a..b")] != [Key("a"), Key(".b")];
    TwoLeavesCollide(tree, [Key("a..b")], 1.0, [Key("a"), Key(".b")], 2.0);
  }
}
