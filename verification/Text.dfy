/** Strings as the platform uses them: status keys, decimal printing, run names. */
module Text {

  predicate IsSpace(c: char) {
    || '\t' <= c <= '\r'
    || '\U{1c}' <= c <= ' '
    || c == '\U{85}' || c == '\U{a0}' || c == '\U{1680}'
    || '\U{2000}' <= c <= '\U{200a}'
    || c == '\U{2028}' || c == '\U{2029}' || c == '\U{202f}' || c == '\U{205f}' || c == '\U{3000}'
  }

  function StripLeft(s: string): string {
    if s != "" && IsSpace(s[0]) then StripLeft(s[1..]) else s
  }

  function StripRight(s: string): string {
    if s != "" && IsSpace(s[|s| - 1]) then StripRight(s[..|s| - 1]) else s
  }

  function Strip(s: string): string {
    StripRight(StripLeft(s))
  }

  function LowerChar(c: char): char {
    if 'A' <= c <= 'Z' then (c as int + 32) as char else c
  }

  /** Lower-casing. Only ASCII letters matter: every word a key is compared with is
      ASCII, and no other character lower-cases to a letter used in those words. */
  function Lower(s: string): string {
    seq(|s|, i requires 0 <= i < |s| => LowerChar(s[i]))
  }

  function StatusKey(s: string): string {
    Lower(Strip(s))
  }

  /** A word that is already lower case and has no space at either end is its own key. */
  lemma PlainKey(s: string)
    requires s != "" ==> !IsSpace(s[0]) && !IsSpace(s[|s| - 1])
    requires forall i :: 0 <= i < |s| ==> !('A' <= s[i] <= 'Z')
    ensures StatusKey(s) == s
  {
  }

  /** A word without space at either end has its lower-case form as key. */
  lemma WordKey(s: string)
    requires s != "" ==> !IsSpace(s[0]) && !IsSpace(s[|s| - 1])
    ensures StatusKey(s) == Lower(s)
  {
  }

  // ---- what a key says ------------------------------------------------------------

  predicate Spaces(s: string) {
    forall i :: 0 <= i < |s| ==> IsSpace(s[i])
  }

  /** The lower-case word w, with letters in any case. */
  predicate SameLetters(s: string, w: string) {
    && |s| == |w|
    && forall i :: 0 <= i < |s| ==> s[i] == w[i] || ('a' <= w[i] <= 'z' && s[i] as int + 32 == w[i] as int)
  }

  ghost predicate Padded(s: string, a: string, mid: string, z: string) {
    s == a + mid + z && Spaces(a) && Spaces(z)
  }

  /** A word that can be a key: lower case, and no space at either end. */
  predicate Plain(w: string) {
    && (w != "" ==> !IsSpace(w[0]) && !IsSpace(w[|w| - 1]))
    && forall i :: 0 <= i < |w| ==> !('A' <= w[i] <= 'Z')
  }

  lemma {:induction false} StripLeftPadded(a: string, s: string)
    requires Spaces(a)
    ensures StripLeft(a + s) == StripLeft(s)
  {
    if a == "" {
      assert a + s == s;
    } else {
      assert (a + s)[0] == a[0] && (a + s)[1..] == a[1..] + s;
      StripLeftPadded(a[1..], s);
    }
  }

  lemma {:induction false} StripRightPadded(s: string, z: string)
    requires Spaces(z)
    ensures StripRight(s + z) == StripRight(s)
  {
    if z == "" {
      assert s + z == s;
    } else {
      var n := |z| - 1;
      assert (s + z)[|s + z| - 1] == z[n] && (s + z)[..|s + z| - 1] == s + z[..n];
      StripRightPadded(s, z[..n]);
    }
  }

  lemma {:induction false} StripLeftLeaves(s: string) returns (a: string)
    ensures Spaces(a) && s == a + StripLeft(s)
    ensures StripLeft(s) != "" ==> !IsSpace(StripLeft(s)[0])
  {
    a := "";
    if s != "" && IsSpace(s[0]) {
      var rest := StripLeftLeaves(s[1..]);
      a := [s[0]] + rest;
      assert s == [s[0]] + s[1..] == a + StripLeft(s);
    }
  }

  lemma {:induction false} StripRightLeaves(s: string) returns (z: string)
    ensures Spaces(z) && s == StripRight(s) + z
    ensures StripRight(s) != "" ==> !IsSpace(StripRight(s)[|StripRight(s)| - 1])
  {
    z := "";
    if s != "" && IsSpace(s[|s| - 1]) {
      var n := |s| - 1;
      var rest := StripRightLeaves(s[..n]);
      z := rest + [s[n]];
      assert s == s[..n] + [s[n]] == StripRight(s) + z;
    }
  }

  /** Stripping takes off exactly the spaces around what has none at its ends. */
  lemma StripPadded(a: string, mid: string, z: string)
    requires Spaces(a) && Spaces(z) && (mid != "" ==> !IsSpace(mid[0]) && !IsSpace(mid[|mid| - 1]))
    ensures Strip(a + mid + z) == mid
  {
    assert a + mid + z == a + (mid + z);
    StripLeftPadded(a, mid + z);
    if mid == "" {
      assert mid + z == z + "";
      StripLeftPadded(z, "");
    } else {
      assert StripLeft(mid + z) == mid + z;
      StripRightPadded(mid, z);
    }
  }

  lemma StripLeaves(s: string) returns (a: string, z: string)
    ensures Padded(s, a, Strip(s), z)
  {
    a := StripLeftLeaves(s);
    z := StripRightLeaves(StripLeft(s));
    assert s == a + (Strip(s) + z) == a + Strip(s) + z;
  }

  lemma LowerIs(s: string, w: string)
    requires forall i :: 0 <= i < |w| ==> !('A' <= w[i] <= 'Z')
    ensures Lower(s) == w <==> SameLetters(s, w)
  {
    if SameLetters(s, w) {
      assert forall i :: 0 <= i < |s| ==> Lower(s)[i] == w[i];
    }
    if Lower(s) == w {
      assert forall i :: 0 <= i < |s| ==> w[i] == LowerChar(s[i]);
    }
  }

  /** A status has a key exactly when it is that word with letters in any case and any
      spaces around it. */
  lemma KeyMeans(s: string, w: string)
    requires Plain(w)
    ensures StatusKey(s) == w <==> exists a, mid, z :: Padded(s, a, mid, z) && SameLetters(mid, w)
  {
    hide Strip, Lower, IsSpace;
    LowerIs(Strip(s), w);
    var a, z := StripLeaves(s);
    if b, mid, y :| Padded(s, b, mid, y) && SameLetters(mid, w) {
      SpacesKeepCase(mid, w);
      StripPadded(b, mid, y);
    }
  }

  /** A space is no letter in disguise. */
  lemma SpacesKeepCase(mid: string, w: string)
    requires Plain(w) && SameLetters(mid, w)
    ensures mid != "" ==> !IsSpace(mid[0]) && !IsSpace(mid[|mid| - 1])
  {
  }

  // ---- decimal numerals ------------------------------------------------------------

  function Digit(d: nat): char
    requires d < 10
  {
    ('0' as int + d) as char
  }

  predicate IsDigit(c: char) {
    '0' <= c <= '9'
  }

  function Decimal(n: nat): (s: string)
    ensures s != "" && forall c | c in s :: IsDigit(c)
  {
    if n < 10 then [Digit(n)] else Decimal(n / 10) + [Digit(n % 10)]
  }

  /** The number a row of digits stands for. */
  function NumberRead(s: string): int {
    if s == "" then 0 else 10 * NumberRead(s[..|s| - 1]) + (s[|s| - 1] as int - '0' as int)
  }

  /** Numbers read as they print, and print without leading zeros. */
  lemma {:induction false} DecimalReads(n: nat)
    ensures NumberRead(Decimal(n)) == n
    ensures n > 0 ==> Decimal(n)[0] != '0'
  {
    var s := Decimal(n);
    assert s[|s| - 1] == Digit(n % 10);
    if n >= 10 {
      DecimalReads(n / 10);
      assert s[..|s| - 1] == Decimal(n / 10);
    } else {
      assert s[..|s| - 1] == "";
    }
  }

  lemma DecimalInjective(m: nat, n: nat)
    requires Decimal(m) == Decimal(n)
    ensures m == n
  {
    DecimalReads(m);
    DecimalReads(n);
  }

  // ---- splitting at a separator -----------------------------------------------------

  /** Two equal strings split at their first separator split into equal halves. */
  lemma SplitFirst(c: char, a: string, x: string, b: string, y: string)
    requires c !in a && c !in b
    requires a + [c] + x == b + [c] + y
    ensures a == b && x == y
  {
    var s := a + [c] + x;
    assert s[|a|] == c && s == b + [c] + y && s[|b|] == c;
    assert forall i | 0 <= i < |a| :: s[i] == a[i] && s[i] != c;
    assert forall i | 0 <= i < |b| :: s[i] == b[i] && s[i] != c;
    assert s[..|a|] == a && s[..|b|] == b;
    assert s[|a| + 1..] == x && s[|b| + 1..] == y;
  }

  /** Two equal strings split at their last separator split into equal halves. */
  lemma SplitLast(c: char, a: string, x: string, b: string, y: string)
    requires c !in x && c !in y
    requires a + [c] + x == b + [c] + y
    ensures a == b && x == y
  {
    var s := a + [c] + x;
    assert s[|a|] == c && s == b + [c] + y && s[|b|] == c;
    assert forall i | |a| < i < |s| :: s[i] == x[i - |a| - 1] && s[i] != c;
    assert forall i | |b| < i < |s| :: s[i] == y[i - |b| - 1] && s[i] != c;
    assert s[..|a|] == a && s[..|b|] == b;
    assert s[|a| + 1..] == x && s[|b| + 1..] == y;
  }
}

/** Deterministic run names and the identifiers minted from them. */
module RunNaming {
  import opened Text

  /** The name a run id is derived from. */
  function RunName(batchId: string, applicationId: string, runIndex: nat): string {
    batchId + ":" + applicationId + ":" + Decimal(runIndex)
  }

  /** Stands for the name-based UUID (version 5, section 4.3 of RFC 4122), taken to be
      collision-free: proofs use that it is injective and never empty, nothing else. */
  function Uuid5(name: string): string {
    "uuid5:" + name
  }

  function MintRunId(batchId: string, applicationId: string, runIndex: nat): (id: string)
    ensures id != ""
  {
    Uuid5(RunName(batchId, applicationId, runIndex))
  }

  lemma Uuid5Injective(a: string, b: string)
    requires Uuid5(a) == Uuid5(b)
    ensures a == b
  {
    assert Uuid5(a)[6..] == a && Uuid5(b)[6..] == b;
  }

  /** Two run ids are equal exactly when the run indexes are equal and the batch and
      application parts read the same when joined by one colon. */
  lemma SameRunId(b1: string, a1: string, i1: nat, b2: string, a2: string, i2: nat)
    ensures MintRunId(b1, a1, i1) == MintRunId(b2, a2, i2)
       <==> i1 == i2 && b1 + ":" + a1 == b2 + ":" + a2
  {
    if MintRunId(b1, a1, i1) == MintRunId(b2, a2, i2) {
      Uuid5Injective(RunName(b1, a1, i1), RunName(b2, a2, i2));
      SplitLast(':', b1 + ":" + a1, Decimal(i1), b2 + ":" + a2, Decimal(i2));
      DecimalInjective(i1, i2);
    }
  }

  /** A run id determines its batch, application and index when batch ids have no colon
      (they are UUIDs), whatever the application ids contain. */
  lemma RunIdInjective(b1: string, a1: string, i1: nat, b2: string, a2: string, i2: nat)
    requires ':' !in b1 && ':' !in b2
    requires MintRunId(b1, a1, i1) == MintRunId(b2, a2, i2)
    ensures b1 == b2 && a1 == a2 && i1 == i2
  {
    SameRunId(b1, a1, i1, b2, a2, i2);
    SplitFirst(':', b1, a1, b2, a2);
  }

  /** Inside one batch no condition on the batch id is needed. */
  lemma RunIdInjectiveInBatch(b: string, a1: string, i1: nat, a2: string, i2: nat)
    requires MintRunId(b, a1, i1) == MintRunId(b, a2, i2)
    ensures a1 == a2 && i1 == i2
  {
    SameRunId(b, a1, i1, b, a2, i2);
    assert (b + ":" + a1)[|b| + 1..] == a1 && (b + ":" + a2)[|b| + 1..] == a2;
  }

  /** Across batches the condition is needed. */
  lemma ColonInBatchIdCollides()
    ensures MintRunId("b:c", "d", 0) == MintRunId("b", "c:d", 0)
  {
    assert "b:c" + ":" + "d" == "b" + ":" + "c:d";
  }
}
