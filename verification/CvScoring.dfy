/** The CV scoring profile: one signal per readable output, one aggregate per application. */
module CvScoring {
  import opened Options
  import opened Json
  import opened Text
  import opened Statistics
  import opened Spread

  datatype Decision = Approve | Reject
  datatype Signal = Signal(score: Option<real>, mustAllMet: bool, decision: Decision)

  const APPROVING := {"approve", "approved", "accept", "accepted", "pass", "passed", "recommend", "recommended",
                      "strong_match"}
  const REJECTING := {"reject", "rejected", "cannot_assess", "insufficient_information", "fail", "failed"}
  const WITHHOLDING := {"insufficient_data", "insufficient_information"}

  predicate PositiveWord(w: string) {
    w in APPROVING
  }

  predicate NegativeWord(w: string) {
    w in REJECTING
  }

  predicate NegativeStatus(w: string) {
    w in WITHHOLDING
  }

  /** `str(v)`. Numbers, lists and dictionaries print as something that is neither blank
      nor one of the words compared with, so one mark stands for all of them. */
  function PyStr(v: Value): string {
    match v
    case Str(s) => s
    case Bool(b) => if b then "True" else "False"
    case Null => "None"
    case _ => "#"
  }

  /** `str(v or "").strip().lower()`. */
  function KeyOf(v: Value): string {
    StatusKey(PyStr(Or(v, Str(""))))
  }

  // ---- the parts of one output --------------------------------------------------------------

  function Eligibility(output: seq<Field>): seq<Field> {
    DictOrEmpty(Get(output, "eligibility"))
  }

  /** A null `overall_score` hides `score`, but not the composite score. */
  function RawScore(output: seq<Field>): Value {
    var score := Get(output, "overall_score", Get(output, "score"));
    if score.Null? then Get(DictOrEmpty(Get(output, "composite_score")), "value") else score
  }

  function DecisionWord(output: seq<Field>): string {
    var word := KeyOf(Or(Get(output, "decision"), Get(output, "final_decision")));
    if word == "" then KeyOf(Get(Eligibility(output), "status")) else word
  }

  function DictValues(fields: seq<Field>): seq<Value> {
    if fields == [] then []
    else (if fields[0].value.Obj? then [fields[0].value] else []) + DictValues(fields[1..])
  }

  function MustHaves(output: seq<Field>): Value {
    var listed := Get(output, "must_haves", Or(Get(output, "must_have_results", Arr([])), Arr([])));
    var checklist := Get(Eligibility(output), "requirements_checklist");
    if !Truthy(listed) && checklist.Obj? then Arr(DictValues(checklist.fields)) else listed
  }

  /** `all(bool(m.get("met")) for m in items)`: stops at the first that is not met, and
      fails on the first that is not a dictionary. */
  function AllMet(items: seq<Value>): Outcome<bool> {
    if items == [] then Done(true)
    else if !items[0].Obj? then Raised("AttributeError")
    else if !Truthy(Get(items[0].fields, "met")) then Done(false)
    else AllMet(items[1..])
  }

  function MustAllMet(output: seq<Field>): Outcome<bool> {
    var mustHaves := MustHaves(output);
    if Truthy(mustHaves) then
      match mustHaves
      case Arr(items) => AllMet(items)
      case Obj(_) => Raised("AttributeError")
      case Str(_) => Raised("AttributeError")
      case _ => Raised("TypeError")
    else Done(DecisionWord(output) != "" && PositiveWord(DecisionWord(output)))
  }

  /** Booleans count as numbers here, unlike in the flattener. */
  function NumericScore(v: Value): Option<real> {
    match v
    case Int(n) => Some(n as real)
    case Float(r) => Some(r)
    case Bool(b) => Some(if b then 1.0 else 0.0)
    case _ => None
  }

  function ScoreOf(output: seq<Field>): Value {
    var status := KeyOf(Get(output, "status"));
    if RawScore(output).Null? && NegativeStatus(status) then Float(0.0) else RawScore(output)
  }

  function ExtractCvSignal(output: seq<Field>): Outcome<Option<Signal>> {
    match MustAllMet(output)
    case Raised(e) => Raised(e)
    case Done(met) =>
      var score, word, status := ScoreOf(output), DecisionWord(output), KeyOf(Get(output, "status"));
      if score.Null? && !Truthy(MustHaves(output)) && word == "" && status == "" then Done(None)
      else
        var decision :=
          if PositiveWord(word) then Approve
          else if NegativeWord(word) then Reject
          else if met then Approve else Reject;
        Done(Some(Signal(NumericScore(score), met, decision)))
  }

  /** A signal's decision contradicts its must-have flag exactly when must-haves are listed
      and an explicit decision word says the opposite of them. */
  lemma DecisionContradictsMustHaves(output: seq<Field>)
    requires ExtractCvSignal(output).Done? && ExtractCvSignal(output).value.Some?
    ensures var s := ExtractCvSignal(output).value.value;
      (s.decision == Approve) != s.mustAllMet
      <==> Truthy(MustHaves(output)) &&
           (if s.mustAllMet then NegativeWord(DecisionWord(output)) else PositiveWord(DecisionWord(output)))
  {
    WordsApart();
    hide MustHaves, DecisionWord, KeyOf, Truthy, ScoreOf, AllMet, PositiveWord, NegativeWord, Find;
  }

  /** No word both approves and rejects, and none of them is blank. */
  lemma WordsApart()
    ensures forall w :: !(PositiveWord(w) && NegativeWord(w))
    ensures PositiveWord("approve") && NegativeWord("reject") && NegativeStatus("insufficient_data")
    ensures !PositiveWord("") && !NegativeWord("") && !NegativeStatus("")
  {
  }

  // ---- aggregation ----------------------------------------------------------------------------

  datatype Aggregate = Aggregate(
    finalScore: Option<real>,
    variance: real,
    finalDecision: Decision,
    mustHaveResult: bool,
    sourceArtifacts: seq<SourceArtifact>,
    runsCount: nat)

  datatype SourceArtifact = SourceArtifact(name: string, blobUri: string, sha256: Option<string>)

  /** The signal of one output as a list of at most one. */
  function ParseOne(output: seq<Field>): Outcome<seq<Signal>> {
    match ExtractCvSignal(output)
    case Raised(e) => Raised(e)
    case Done(s) => Done(if s.Some? then [s.value] else [])
  }

  function Join(a: Outcome<seq<Signal>>, b: Outcome<seq<Signal>>): Outcome<seq<Signal>> {
    if a.Raised? then a else if b.Raised? then b else Done(a.value + b.value)
  }

  /** The signals of the outputs in order, or the first failure. */
  function ParseAll(outputs: seq<seq<Field>>): Outcome<seq<Signal>> {
    if outputs == [] then Done([]) else Join(ParseOne(outputs[0]), ParseAll(outputs[1..]))
  }

  function Scores(parsed: seq<Signal>): (s: seq<real>)
    ensures |s| <= |parsed|
  {
    if parsed == [] then []
    else (if parsed[0].score.Some? then [parsed[0].score.value] else []) + Scores(parsed[1..])
  }

  function Votes(parsed: seq<Signal>, d: Decision): (n: nat)
    ensures n <= |parsed|
  {
    if parsed == [] then 0 else (if parsed[0].decision == d then 1 else 0) + Votes(parsed[1..], d)
  }

  /** `max(set(decisions), key=decisions.count)`. Which of two equally frequent decisions
      wins depends on the order the set is walked in, given here by approveFirst. */
  function Mode(parsed: seq<Signal>, approveFirst: bool): Decision {
    var a, r := Votes(parsed, Approve), Votes(parsed, Reject);
    if a > r || (a == r && approveFirst) then Approve else Reject
  }

  function Summary(parsed: seq<Signal>, artifacts: seq<SourceArtifact>, approveFirst: bool): Aggregate {
    var scores := Scores(parsed);
    Aggregate(
      if scores != [] then Some(Median(scores)) else None,
      if |scores| > 1 then PVariance(scores) else 0.0,
      Mode(parsed, approveFirst),
      forall i :: 0 <= i < |parsed| ==> parsed[i].mustAllMet,
      artifacts,
      |parsed|)
  }

  function CvAggregate(outputs: seq<seq<Field>>, artifacts: seq<SourceArtifact>, approveFirst: bool)
    : Outcome<Option<Aggregate>>
  {
    match ParseAll(outputs)
    case Raised(e) => Raised(e)
    case Done(parsed) => Done(if parsed == [] then None else Some(Summary(parsed, artifacts, approveFirst)))
  }

  // ---- when aggregation fails --------------------------------------------------------------------

  predicate Met(v: Value) {
    v.Obj? && Truthy(Get(v.fields, "met"))
  }

  /** Each item looked at, which are those up to the first unmet one, is a dictionary. */
  ghost predicate Checkable(items: seq<Value>) {
    forall n :: 0 <= n < |items| && (forall m :: 0 <= m < n ==> Met(items[m])) ==> items[n].Obj?
  }

  lemma {:induction false} AllMetMeans(items: seq<Value>)
    ensures AllMet(items).Done? <==> Checkable(items)
    ensures AllMet(items) == Done(true) <==> forall n :: 0 <= n < |items| ==> Met(items[n])
  {
    if items != [] {
      hide Truthy, Get;
      var rest := items[1..];
      AllMetMeans(rest);
      assert forall n :: 0 < n < |items| ==> items[n] == rest[n - 1];
      assert forall n :: 0 <= n < |rest| ==> rest[n] == items[n + 1];
      if Met(items[0]) {
        if Checkable(rest) {
          forall n | 0 <= n < |items| && (forall m :: 0 <= m < n ==> Met(items[m])) ensures items[n].Obj? {
            if n > 0 {
              assert forall m :: 0 <= m < n - 1 ==> Met(rest[m]);
              assert rest[n - 1].Obj?;
            }
          }
        }
        if Checkable(items) {
          forall n | 0 <= n < |rest| && (forall m :: 0 <= m < n ==> Met(rest[m])) ensures rest[n].Obj? {
            assert forall m :: 0 <= m < n + 1 ==> Met(items[m]);
            assert items[n + 1].Obj?;
          }
        }
      }
    }
  }

  /** The must-haves can be evaluated: there are none, or they are a list whose items, as
      far as they are looked at, are dictionaries. */
  ghost predicate MustHavesReadable(output: seq<Field>) {
    !Truthy(MustHaves(output)) || (MustHaves(output).Arr? && Checkable(MustHaves(output).items))
  }

  /** An output has a signal, or none, without an exception exactly when its must-haves can
      be evaluated. */
  lemma ExtractionSucceeds(output: seq<Field>)
    ensures ExtractCvSignal(output).Done? <==> MustHavesReadable(output)
  {
    hide MustHaves, DecisionWord, AllMet, Checkable, Truthy, KeyOf, ScoreOf;
    if MustHaves(output).Arr? {
      AllMetMeans(MustHaves(output).items);
    }
  }

  ghost predicate EachReadable(outputs: seq<seq<Field>>) {
    forall k :: 0 <= k < |outputs| ==> MustHavesReadable(outputs[k])
  }

  lemma {:induction false} ParsingSucceeds(outputs: seq<seq<Field>>)
    ensures ParseAll(outputs).Done? <==> EachReadable(outputs)
  {
    hide ExtractCvSignal, MustHavesReadable;
    if outputs != [] {
      ParsingSucceeds(outputs[1..]);
      ExtractionSucceeds(outputs[0]);
      assert forall k :: 0 < k < |outputs| ==> outputs[k] == outputs[1..][k - 1];
      assert forall k :: 0 <= k < |outputs| - 1 ==> outputs[1..][k] == outputs[k + 1];
    }
  }

  /** An output that has a score and breaks the aggregation all the same. */
  const LISTED_SKILL: seq<Field> := [Field("overall_score", Int(85)), Field("must_haves", Arr([Str("Python")]))]

  lemma ScoredYetRaises()
    ensures NumericScore(ScoreOf(LISTED_SKILL)) == Some(85.0)
    ensures ExtractCvSignal(LISTED_SKILL) == Raised("AttributeError") && !MustHavesReadable(LISTED_SKILL)
  {
    var output := LISTED_SKILL;
    assert DistinctKeys(output);
    FindMember(output, "overall_score");
    FindMember(output, "must_haves");
    assert output[0].key == "overall_score" && output[1].key == "must_haves";
    hide Find, KeyOf, DecisionWord;
    assert MustHaves(output) == Arr([Str("Python")]);
    ExtractionSucceeds(output);
  }

  lemma {:induction false} ParseAllAppend(a: seq<seq<Field>>, b: seq<seq<Field>>)
    ensures ParseAll(a + b) == Join(ParseAll(a), ParseAll(b))
  {
    hide ParseOne;
    if a == [] {
      assert a + b == b;
      assert ParseAll(b).Done? ==> [] + ParseAll(b).value == ParseAll(b).value;
    } else {
      assert (a + b)[1..] == a[1..] + b;
      ParseAllAppend(a[1..], b);
      JoinAssociative(ParseOne(a[0]), ParseAll(a[1..]), ParseAll(b));
    }
  }

  lemma JoinAssociative(a: Outcome<seq<Signal>>, b: Outcome<seq<Signal>>, c: Outcome<seq<Signal>>)
    ensures Join(Join(a, b), c) == Join(a, Join(b, c))
  {
    if a.Done? && b.Done? && c.Done? {
      assert a.value + b.value + c.value == a.value + (b.value + c.value);
    }
  }

  lemma ParseAllOne(output: seq<Field>)
    ensures ParseAll([output]) == ParseOne(output)
  {
    hide ParseOne;
    assert [output][1..] == [];
    assert ParseOne(output).Done? ==> ParseOne(output).value + [] == ParseOne(output).value;
  }

  lemma SplitAt<T>(s: seq<T>, k: nat)
    requires k < |s|
    ensures s[..k + 1] == s[..k] + [s[k]] && s == s[..k + 1] + s[k + 1..]
  {
  }

  lemma ParseAllStep(outputs: seq<seq<Field>>, k: nat)
    requires k < |outputs|
    ensures ParseAll(outputs[..k + 1]) == Join(ParseAll(outputs[..k]), ParseOne(outputs[k]))
    ensures ParseAll(outputs) == Join(ParseAll(outputs[..k + 1]), ParseAll(outputs[k + 1..]))
  {
    hide *;
    SplitAt(outputs, k);
    ParseAllOne(outputs[k]);
    ParseAllAppend(outputs[..k], [outputs[k]]);
    ParseAllAppend(outputs[..k + 1], outputs[k + 1..]);
  }

  method AggregateCvScoring(outputs: seq<seq<Field>>, artifacts: seq<SourceArtifact>, approveFirst: bool)
    returns (r: Outcome<Option<Aggregate>>)
    ensures r == CvAggregate(outputs, artifacts, approveFirst)
  {
    hide ExtractCvSignal, ParseAll, Summary;
    var parsed: seq<Signal> := [];
    assert ParseAll(outputs[..0]) == Done([]) by { ParseAllNothing(); }
    for k := 0 to |outputs|
      invariant ParseAll(outputs[..k]) == Done(parsed)
    {
      ParseAllStep(outputs, k);
      var signal := ExtractCvSignal(outputs[k]);
      if signal.Raised? {
        return Raised(signal.error);
      }
      assert parsed + [] == parsed;
      if signal.value.Some? {
        parsed := parsed + [signal.value.value];
      }
    }
    assert outputs[..|outputs|] == outputs;
    r := Done(if parsed == [] then None else Some(Summary(parsed, artifacts, approveFirst)));
  }

  lemma ParseAllNothing()
    ensures ParseAll([]) == Done([])
  {
  }

  // ---- what the aggregate says -----------------------------------------------------------------

  lemma {:induction false} VotesTotal(parsed: seq<Signal>)
    ensures Votes(parsed, Approve) + Votes(parsed, Reject) == |parsed|
  {
    if parsed != [] {
      VotesTotal(parsed[1..]);
    }
  }

  lemma {:induction false} VotesPresent(parsed: seq<Signal>, d: Decision)
    requires Votes(parsed, d) > 0
    ensures exists i :: 0 <= i < |parsed| && parsed[i].decision == d
  {
    if parsed[0].decision != d {
      VotesPresent(parsed[1..], d);
      var i :| 0 <= i < |parsed[1..]| && parsed[1..][i].decision == d;
      assert parsed[i + 1].decision == d;
    }
  }

  /** The final decision was cast by some run, none was cast more often, and the walking
      order matters only on a tie. */
  lemma {:induction false} FinalDecisionIsMode(parsed: seq<Signal>, approveFirst: bool)
    requires parsed != []
    ensures var d := Mode(parsed, approveFirst);
      && (exists i :: 0 <= i < |parsed| && parsed[i].decision == d)
      && (forall e :: Votes(parsed, e) <= Votes(parsed, d))
      && (Votes(parsed, Approve) != Votes(parsed, Reject) ==> d == Mode(parsed, !approveFirst))
      && (Votes(parsed, Approve) == Votes(parsed, Reject) ==> d != Mode(parsed, !approveFirst))
  {
    VotesTotal(parsed);
    VotesPresent(parsed, Mode(parsed, approveFirst));
  }

  lemma {:induction false} ScoresExist(parsed: seq<Signal>)
    ensures Scores(parsed) != [] <==> exists i :: 0 <= i < |parsed| && parsed[i].score.Some?
  {
    if parsed != [] {
      ScoresExist(parsed[1..]);
      if i :| 0 <= i < |parsed| && parsed[i].score.Some? {
        assert i > 0 ==> parsed[1..][i - 1].score.Some?;
      }
      if Scores(parsed[1..]) != [] {
        var i :| 0 <= i < |parsed[1..]| && parsed[1..][i].score.Some?;
        assert parsed[i + 1].score.Some?;
      }
    }
  }

  /** Same signals up to scores, none of which went down. */
  ghost predicate ScoresRaised(p: seq<Signal>, q: seq<Signal>) {
    && |p| == |q|
    && forall i :: 0 <= i < |p| ==>
      && q[i] == p[i].(score := q[i].score)
      && (p[i].score.Some? <==> q[i].score.Some?)
      && (p[i].score.Some? ==> p[i].score.value <= q[i].score.value)
  }

  lemma {:induction false} ScoresDominated(p: seq<Signal>, q: seq<Signal>)
    requires ScoresRaised(p, q)
    ensures |Scores(p)| == |Scores(q)|
    ensures forall i :: 0 <= i < |Scores(p)| ==> Scores(p)[i] <= Scores(q)[i]
    ensures forall d :: Votes(p, d) == Votes(q, d)
  {
    if p != [] {
      assert q[0] == p[0].(score := q[0].score);
      assert ScoresRaised(p[1..], q[1..]);
      ScoresDominated(p[1..], q[1..]);
      forall d ensures Votes(p, d) == Votes(q, d) {
        assert Votes(p[1..], d) == Votes(q[1..], d);
      }
    }
  }

  /** Raising any run's score, all else fixed, never lowers the final score and changes
      neither the decision nor the must-have result. */
  lemma MonotoneScoring(p: seq<Signal>, q: seq<Signal>, artifacts: seq<SourceArtifact>, approveFirst: bool)
    requires ScoresRaised(p, q)
    ensures var a, b := Summary(p, artifacts, approveFirst), Summary(q, artifacts, approveFirst);
      && (a.finalScore.Some? <==> b.finalScore.Some?)
      && (a.finalScore.Some? ==> a.finalScore.value <= b.finalScore.value)
      && a.finalDecision == b.finalDecision && a.mustHaveResult == b.mustHaveResult && a.runsCount == b.runsCount
  {
    ScoresDominated(p, q);
    AggregateMonotone(Scores(p), Scores(q), MedianOf);
    assert forall i :: 0 <= i < |p| ==> p[i].mustAllMet == q[i].mustAllMet;
  }

  predicate ScoreKey(key: string) {
    key in {"overall_score", "score", "composite_score"}
  }

  /** A score under `overall_score` settles it: what else the output holds under `score`, and
      unless it is null under `composite_score`, makes no difference to anything. */
  lemma FirstScoreSettlesIt(f: seq<Field>, g: seq<Field>)
    requires Find(f, "overall_score").Some?
    requires forall key :: key !in {"score", "composite_score"} ==> Find(f, key) == Find(g, key)
    requires Find(f, "overall_score") == Some(Null) ==> Find(f, "composite_score") == Find(g, "composite_score")
    ensures ExtractCvSignal(f) == ExtractCvSignal(g)
  {
    hide Find, KeyOf, AllMet, DictValues, Truthy, Or, PositiveWord, NegativeWord, NegativeStatus;
    SameBesideScore(f, g);
    assert RawScore(f) == RawScore(g);
  }

  /** Two outputs that differ in where or what their numeric score is, and in nothing else,
      give signals that differ in the score and in nothing else. Integers, fractions and
      booleans all count as numbers. */
  lemma ScoreMovesOnlyScore(f: seq<Field>, g: seq<Field>, x: real, y: real)
    requires NumericScore(RawScore(f)) == Some(x) && NumericScore(RawScore(g)) == Some(y)
    requires forall key :: !ScoreKey(key) ==> Find(f, key) == Find(g, key)
    ensures match ExtractCvSignal(f)
      case Raised(e) => ExtractCvSignal(g) == Raised(e)
      case Done(s) =>
        && s.Some? && s.value.score == Some(x)
        && ExtractCvSignal(g) == Done(Some(s.value.(score := Some(y))))
  {
    hide Find, KeyOf, AllMet, DictValues, Truthy, Or, PositiveWord, NegativeWord, NegativeStatus, RawScore;
    SameBesideScore(f, g);
  }

  lemma SameBesideScore(f: seq<Field>, g: seq<Field>)
    requires forall key :: !ScoreKey(key) ==> Find(f, key) == Find(g, key)
    ensures MustHaves(f) == MustHaves(g) && DecisionWord(f) == DecisionWord(g) && MustAllMet(f) == MustAllMet(g)
    ensures Get(f, "status") == Get(g, "status")
  {
    hide Find, KeyOf, AllMet, DictValues, Truthy, Or, PositiveWord;
  }

  /** Seen from the outputs: raising the number one output has as its score, all else in all
      outputs fixed, never lowers the final score and changes no other verdict, nor whether
      aggregation succeeds. */
  lemma RaisingOneOutput(outputs: seq<seq<Field>>, k: nat, g: seq<Field>, x: real, y: real,
                         artifacts: seq<SourceArtifact>, approveFirst: bool)
    requires k < |outputs| && x <= y
    requires NumericScore(RawScore(outputs[k])) == Some(x) && NumericScore(RawScore(g)) == Some(y)
    requires forall key :: !ScoreKey(key) ==> Find(outputs[k], key) == Find(g, key)
    ensures match (CvAggregate(outputs, artifacts, approveFirst),
                   CvAggregate(outputs[k := g], artifacts, approveFirst)) {
      case (Raised(e), other) => other == Raised(e)
      case (Done(Some(a)), Done(Some(c))) =>
        && a.finalScore.Some? && c.finalScore.Some? && a.finalScore.value <= c.finalScore.value
        && c.finalDecision == a.finalDecision && c.mustHaveResult == a.mustHaveResult && c.runsCount == a.runsCount
      case _ => false
    }
  {
    hide ExtractCvSignal, ParseOne, ParseAll, Find, Summary, RawScore;
    var raised := outputs[k := g];
    var front, back := ParseAll(outputs[..k]), ParseAll(outputs[k + 1..]);
    assert raised[..k] == outputs[..k] && raised[k + 1..] == outputs[k + 1..];
    ParseAllStep(outputs, k);
    ParseAllStep(raised, k);
    ParseOneRaised(outputs[k], g, x, y);
    if front.Done? && ParseOne(outputs[k]).Done? && back.Done? {
      var s, t := ParseOne(outputs[k]).value[0], ParseOne(g).value[0];
      assert ParseAll(outputs).value == front.value + [s] + back.value;
      assert ParseAll(raised).value == front.value + [t] + back.value;
      RaisedInPlace(front.value, s, t, back.value, artifacts, approveFirst);
    }
  }

  lemma ParseOneRaised(f: seq<Field>, g: seq<Field>, x: real, y: real)
    requires NumericScore(RawScore(f)) == Some(x) && NumericScore(RawScore(g)) == Some(y)
    requires forall key :: !ScoreKey(key) ==> Find(f, key) == Find(g, key)
    ensures ParseOne(f).Raised? ==> ParseOne(g) == ParseOne(f)
    ensures ParseOne(f).Done? ==> |ParseOne(f).value| == 1 && ParseOne(f).value[0].score == Some(x)
    ensures ParseOne(f).Done? ==> ParseOne(g) == Done([ParseOne(f).value[0].(score := Some(y))])
  {
    hide ExtractCvSignal, Find, RawScore;
    ScoreMovesOnlyScore(f, g, x, y);
  }

  lemma RaisedInPlace(front: seq<Signal>, s: Signal, t: Signal, back: seq<Signal>, artifacts: seq<SourceArtifact>,
                      approveFirst: bool)
    requires s.score.Some? && t.score.Some? && s.score.value <= t.score.value && t == s.(score := t.score)
    ensures var a, c := Summary(front + [s] + back, artifacts, approveFirst),
        Summary(front + [t] + back, artifacts, approveFirst);
      && a.finalScore.Some? && c.finalScore.Some? && a.finalScore.value <= c.finalScore.value
      && c.finalDecision == a.finalDecision && c.mustHaveResult == a.mustHaveResult && c.runsCount == a.runsCount
  {
    hide Scores, Votes, Median, PVariance, Mode;
    var p, q := front + [s] + back, front + [t] + back;
    assert p[|front|] == s && forall i :: 0 <= i < |p| && i != |front| ==> p[i] == q[i];
    MonotoneScoring(p, q, artifacts, approveFirst);
    ScoresExist(p);
  }

  /** The spread published beside the score: zero exactly when no two scores differ, at most
      a quarter of the squared range, and the score is within its root of the mean. */
  lemma PublishedSpread(parsed: seq<Signal>, artifacts: seq<SourceArtifact>, approveFirst: bool, lo: real, hi: real)
    requires Scores(parsed) != []
    requires forall i :: 0 <= i < |Scores(parsed)| ==> lo <= Scores(parsed)[i] <= hi
    ensures var a, s := Summary(parsed, artifacts, approveFirst), Scores(parsed);
      && a.finalScore.Some? && lo <= a.finalScore.value <= hi
      && 0.0 <= a.variance <= (hi - lo) * (hi - lo) / 4.0
      && (a.variance == 0.0 <==> forall i, j :: 0 <= i < j < |s| ==> s[i] == s[j])
      && (Mean(s) - a.finalScore.value) * (Mean(s) - a.finalScore.value) <= a.variance
  {
    hide Scores, Count, Median, Mode, PVariance, Mean;
    var s := Scores(parsed);
    CountNone(s, Below(lo));
    CountNone(s, Above(hi));
    AggregateRobust(s, MedianOf, lo, hi);
    VarianceZero(s);
    VarianceByRange(s, lo, hi);
    MedianNearMean(s);
    if |s| == 1 {
      assert s == [s[0]];
      VarianceByRange(s, s[0], s[0]);
    }
  }
}
