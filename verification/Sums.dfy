/** Sums over sequences, used for recounting. */
module Sums {

  function Sum<T>(s: seq<T>, f: T -> int): int {
    if s == [] then 0 else f(s[0]) + Sum(s[1..], f)
  }

  lemma {:induction false} SumUpdate<T>(s: seq<T>, i: nat, x: T, f: T -> int)
    requires i < |s|
    ensures Sum(s[i := x], f) == Sum(s, f) - f(s[i]) + f(x)
  {
    if i > 0 {
      assert s[i := x][1..] == s[1..][i - 1 := x];
      SumUpdate(s[1..], i - 1, x, f);
    } else {
      assert s[0 := x][1..] == s[1..];
    }
  }

  lemma {:induction false} SumAgrees<T>(s: seq<T>, t: seq<T>, f: T -> int)
    requires |s| == |t| && forall i :: 0 <= i < |s| ==> f(s[i]) == f(t[i])
    ensures Sum(s, f) == Sum(t, f)
  {
    if s != [] {
      SumAgrees(s[1..], t[1..], f);
    }
  }

  /** A sum of zeros and ones counts the ones. */
  lemma {:induction false} SumOfBits<T>(s: seq<T>, f: T -> int)
    requires forall i :: 0 <= i < |s| ==> 0 <= f(s[i]) <= 1
    ensures 0 <= Sum(s, f) <= |s|
    ensures Sum(s, f) == |s| <==> forall i :: 0 <= i < |s| ==> f(s[i]) == 1
    ensures Sum(s, f) == 0 <==> forall i :: 0 <= i < |s| ==> f(s[i]) == 0
  {
    if s != [] {
      SumOfBits(s[1..], f);
      assert forall i :: 0 < i < |s| ==> s[i] == s[1..][i - 1];
      assert forall i :: 0 <= i < |s| - 1 ==> s[1..][i] == s[i + 1];
    }
  }

  lemma {:induction false} SumDominated<T>(s: seq<T>, f: T -> int, g: T -> int)
    requires forall i :: 0 <= i < |s| ==> f(s[i]) <= g(s[i])
    ensures Sum(s, f) <= Sum(s, g)
  {
    if s != [] {
      SumDominated(s[1..], f, g);
    }
  }

  lemma {:induction false} SumAppend<T>(s: seq<T>, t: seq<T>, f: T -> int)
    ensures Sum(s + t, f) == Sum(s, f) + Sum(t, f)
  {
    if s == [] {
      assert s + t == t;
    } else {
      assert (s + t)[1..] == s[1..] + t;
      SumAppend(s[1..], t, f);
    }
  }

  ghost function Ones<T(!new)>(s: seq<T>, f: T -> int): set<int> {
    set i | 0 <= i < |s| && f(s[i]) == 1
  }

  /** A sum of zeros and ones is the number of places that have a one. */
  lemma {:induction false} BitsCounted<T(!new)>(s: seq<T>, f: T -> int)
    requires forall i :: 0 <= i < |s| ==> 0 <= f(s[i]) <= 1
    ensures Sum(s, f) == |Ones(s, f)|
  {
    if s == [] {
      assert Ones(s, f) == {};
    } else {
      var n := |s| - 1;
      var front, last := s[..n], [s[n]];
      BitsCounted(front, f);
      assert s == front + last && last[1..] == [];
      SumAppend(front, last, f);
      assert Ones(s, f) == Ones(front, f) + if f(s[n]) == 1 then {n} else {};
    }
  }

  // ---- picking out of a sequence ---------------------------------------------------------------

  ghost predicate Rising(places: seq<nat>) {
    forall m, n :: 0 <= m < n < |places| ==> places[m] < places[n]
  }

  ghost predicate AllGood<T(!new)>(all: seq<T>, good: T -> bool, places: seq<nat>) {
    forall m :: 0 <= m < |places| ==> places[m] < |all| && good(all[places[m]])
  }

  ghost predicate NoneMissing<T(!new)>(all: seq<T>, good: T -> bool, places: seq<nat>) {
    forall j :: 0 <= j < |all| && good(all[j]) ==> j in places
  }

  /** The places, in order, of all elements that are good. */
  ghost predicate Picks<T(!new)>(all: seq<T>, good: T -> bool, places: seq<nat>) {
    Rising(places) && AllGood(all, good, places) && NoneMissing(all, good, places)
  }

  /** The places in a sequence that has one more element in front, and that element's own
      when it is good. */
  function Onward(first: bool, rest: seq<nat>): (places: seq<nat>)
    ensures |places| == |rest| + if first then 1 else 0
    ensures first ==> places[0] == 0 && forall m :: 0 < m < |places| ==> places[m] == rest[m - 1] + 1
    ensures !first ==> forall m :: 0 <= m < |places| ==> places[m] == rest[m] + 1
  {
    (if first then [0] else []) + seq(|rest|, m requires 0 <= m < |rest| => rest[m] + 1)
  }

  lemma OnwardMisses<T(!new)>(all: seq<T>, good: T -> bool, rest: seq<nat>)
    requires all != [] && NoneMissing(all[1..], good, rest)
    ensures NoneMissing(all, good, Onward(good(all[0]), rest))
  {
    var first := good(all[0]);
    var places := Onward(first, rest);
    hide Onward;
    forall j | 0 <= j < |all| && good(all[j]) ensures j in places {
      if j == 0 {
        assert places[0] == 0;
      } else {
        assert all[1..][j - 1] == all[j];
        var m :| 0 <= m < |rest| && rest[m] == j - 1;
        var n := if first then m + 1 else m;
        assert places[n] == j;
      }
    }
  }

  lemma PicksFirst<T(!new)>(all: seq<T>, good: T -> bool, rest: seq<nat>)
    requires all != [] && Picks(all[1..], good, rest)
    ensures Picks(all, good, Onward(good(all[0]), rest))
  {
    OnwardMisses(all, good, rest);
    var first := good(all[0]);
    var places := Onward(first, rest);
    hide Onward, NoneMissing;
    assert Rising(places);
    forall m | 0 <= m < |places| ensures places[m] < |all| && good(all[places[m]]) {
      var n := if first then m - 1 else m;
      if n >= 0 {
        assert all[1..][rest[n]] == all[places[m]];
      }
    }
  }
}
