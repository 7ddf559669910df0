/** What an output says, read off its fields: the reference the extraction is held against. */
module CvReading {
  import opened Options
  import opened Json
  import opened Text
  import opened CvScoring

  /** The value is a text that reads as one of these words. */
  ghost predicate Says(v: Value, words: set<string>) {
    v.Str? && StatusKey(v.s) in words
  }

  ghost predicate Blank(v: Value) {
    !Truthy(v) || (v.Str? && StatusKey(v.s) == "")
  }

  /** The value under a key of a nested object; null when there is no such thing. */
  ghost function Under(f: seq<Field>, outer: string, inner: string): Value {
    match Get(f, outer)
    case Obj(g) => Get(g, inner)
    case _ => Null
  }

  // ---- the decision ------------------------------------------------------------------------------

  /** An explicit decision, and where that is blank the status of the eligibility check. */
  ghost function Stated(f: seq<Field>): Value {
    var explicit := if Truthy(Get(f, "decision")) then Get(f, "decision") else Get(f, "final_decision");
    if Blank(explicit) then Under(f, "eligibility", "status") else explicit
  }

  ghost predicate Approves(f: seq<Field>) {
    Says(Stated(f), APPROVING)
  }

  ghost predicate Rejects(f: seq<Field>) {
    Says(Stated(f), REJECTING)
  }

  // ---- the must-haves ----------------------------------------------------------------------------

  ghost function OwnList(f: seq<Field>): Value {
    if Find(f, "must_haves").Some? then Get(f, "must_haves") else Get(f, "must_have_results")
  }

  /** The k-th entry of the eligibility checklist, when it is an object. */
  ghost predicate ChecklistItem(f: seq<Field>, k: nat, v: Value) {
    && v.Obj? && Under(f, "eligibility", "requirements_checklist").Obj?
    && k < |Under(f, "eligibility", "requirements_checklist").fields|
    && Under(f, "eligibility", "requirements_checklist").fields[k].value == v
  }

  ghost predicate AnyListed(f: seq<Field>) {
    Truthy(OwnList(f)) || exists k: nat, v :: ChecklistItem(f, k, v)
  }

  /** Every item of the output's own list, or where it has none of the checklist, has a
      truthy `met`. */
  ghost predicate EveryMet(f: seq<Field>) {
    if Truthy(OwnList(f)) then OwnList(f).Arr? && forall n :: 0 <= n < |OwnList(f).items| ==> Met(OwnList(f).items[n])
    else forall k: nat, v :: ChecklistItem(f, k, v) ==> Met(v)
  }

  // ---- the score ---------------------------------------------------------------------------------

  ghost predicate Numeral(v: Value, x: Option<real>) {
    match v
    case Int(n) => x == Some(n as real)
    case Float(r) => x == Some(r)
    case Bool(b) => x == Some(if b then 1.0 else 0.0)
    case _ => x.None?
  }

  ghost function FirstScore(f: seq<Field>): Value {
    if Find(f, "overall_score").Some? then Get(f, "overall_score") else Get(f, "score")
  }

  /** The score is the overall score, the composite one where that is null, and zero where
      both are and the status says that there was nothing to go by. */
  ghost predicate ScoreTells(f: seq<Field>, score: Option<real>) {
    var composite := Under(f, "composite_score", "value");
    && (!FirstScore(f).Null? ==> Numeral(FirstScore(f), score))
    && (FirstScore(f).Null? && !composite.Null? ==> Numeral(composite, score))
    && (FirstScore(f).Null? && composite.Null? ==>
         score == if Says(Get(f, "status"), WITHHOLDING) then Some(0.0) else None)
  }

  /** There is a number where the score is looked for. */
  ghost predicate HasNumber(f: seq<Field>) {
    exists x :: ScoreTells(f, Some(x))
  }

  // ---- the signal ---------------------------------------------------------------------------------

  /** There is something in the output to go by. */
  ghost predicate Speaks(f: seq<Field>) {
    || !FirstScore(f).Null? || !Under(f, "composite_score", "value").Null?
    || AnyListed(f) || !Blank(Stated(f)) || !Blank(Get(f, "status"))
  }

  /** The must-haves hold when all listed ones are met; with none listed, when the output
      approves. It is approved when it approves, or does not reject and the must-haves hold. */
  ghost predicate SignalTells(s: Signal, f: seq<Field>) {
    && ScoreTells(f, s.score)
    && (s.mustAllMet <==> if AnyListed(f) then EveryMet(f) else Approves(f))
    && (s.decision == Approve <==> Approves(f) || (!Rejects(f) && s.mustAllMet))
  }

  /** The output's own list of must-haves, if it has one, can be evaluated. */
  ghost predicate Evaluable(f: seq<Field>) {
    Truthy(OwnList(f)) ==> OwnList(f).Arr? && Checkable(OwnList(f).items)
  }

  // ---- the extraction follows it ---------------------------------------------------------------------

  /** The key of a value: a text's own, and otherwise one that no list of words has. */
  lemma KeyOfIs(v: Value)
    ensures !Truthy(v) ==> KeyOf(v) == ""
    ensures v.Str? ==> KeyOf(v) == StatusKey(v.s)
    ensures Truthy(v) && !v.Str? ==> KeyOf(v) in {"true", "#"}
  {
    PlainKey("");
    PlainKey("#");
    WordKey("True");
    assert Lower("True") == "true";
    hide StatusKey, Lower, IsSpace;
  }

  lemma NoSuchWords()
    ensures forall key :: key in {"true", "#"} ==> !PositiveWord(key) && !NegativeWord(key) && !NegativeStatus(key)
  {
  }

  lemma KeyOfMeans(v: Value)
    ensures KeyOf(v) == "" <==> Blank(v)
    ensures PositiveWord(KeyOf(v)) <==> Says(v, APPROVING)
    ensures NegativeWord(KeyOf(v)) <==> Says(v, REJECTING)
    ensures NegativeStatus(KeyOf(v)) <==> Says(v, WITHHOLDING)
  {
    KeyOfIs(v);
    NoSuchWords();
    WordsApart();
    assert forall w :: (PositiveWord(w) <==> w in APPROVING) && (NegativeWord(w) <==> w in REJECTING);
    assert forall w :: NegativeStatus(w) <==> w in WITHHOLDING;
    hide KeyOf, StatusKey, PositiveWord, NegativeWord, NegativeStatus, APPROVING, REJECTING, WITHHOLDING;
  }

  lemma WordMeans(f: seq<Field>)
    ensures DecisionWord(f) == "" <==> Blank(Stated(f))
    ensures PositiveWord(DecisionWord(f)) <==> Approves(f)
    ensures NegativeWord(DecisionWord(f)) <==> Rejects(f)
  {
    hide Find, StatusKey, KeyOf, Blank, Says, PositiveWord, NegativeWord;
    var explicit := if Truthy(Get(f, "decision")) then Get(f, "decision") else Get(f, "final_decision");
    assert explicit == Or(Get(f, "decision"), Get(f, "final_decision"));
    KeyOfMeans(explicit);
    KeyOfMeans(Under(f, "eligibility", "status"));
    NothingUnderNothing("status");
  }

  lemma NothingUnderNothing(key: string)
    ensures Get([], key) == Null
  {
  }

  lemma {:induction false} DictValuesAre(fields: seq<Field>)
    ensures forall n :: 0 <= n < |DictValues(fields)| ==>
      DictValues(fields)[n].Obj? && exists k: nat :: k < |fields| && fields[k].value == DictValues(fields)[n]
    ensures forall k :: 0 <= k < |fields| && fields[k].value.Obj? ==> fields[k].value in DictValues(fields)
  {
    if fields != [] {
      var rest := fields[1..];
      DictValuesAre(rest);
      assert DictValues(fields) == (if fields[0].value.Obj? then [fields[0].value] else []) + DictValues(rest);
      forall n | 0 <= n < |DictValues(fields)|
        ensures DictValues(fields)[n].Obj?
        ensures exists k: nat :: k < |fields| && fields[k].value == DictValues(fields)[n]
      {
        var m := if fields[0].value.Obj? then n - 1 else n;
        if m >= 0 {
          assert DictValues(fields)[n] == DictValues(rest)[m];
          var k: nat :| k < |rest| && rest[k].value == DictValues(rest)[m];
          assert fields[k + 1].value == DictValues(fields)[n];
        } else {
          assert fields[0].value == DictValues(fields)[n];
        }
      }
      forall k | 0 <= k < |fields| && fields[k].value.Obj? ensures fields[k].value in DictValues(fields) {
        assert k > 0 ==> rest[k - 1] == fields[k];
      }
    }
  }

  /** The list that is evaluated, in either case. */
  lemma MustHavesMean(f: seq<Field>)
    ensures Truthy(MustHaves(f)) <==> AnyListed(f)
    ensures Truthy(OwnList(f)) ==> MustHaves(f) == OwnList(f)
    ensures !Truthy(OwnList(f)) && AnyListed(f) ==>
      MustHaves(f).Arr? && (EveryMet(f) <==> forall n :: 0 <= n < |MustHaves(f).items| ==> Met(MustHaves(f).items[n]))
    ensures !Truthy(OwnList(f)) && AnyListed(f) ==>
      forall n :: 0 <= n < |MustHaves(f).items| ==> MustHaves(f).items[n].Obj?
  {
    hide Find, DictValues, Met;
    var checklist := Under(f, "eligibility", "requirements_checklist");
    NothingUnderNothing("requirements_checklist");
    assert checklist == Get(Eligibility(f), "requirements_checklist");
    if !Truthy(OwnList(f)) {
      if checklist.Obj? {
        DictValuesAre(checklist.fields);
        var values := DictValues(checklist.fields);
        forall k: nat, v | ChecklistItem(f, k, v) ensures v in values {
        }
        forall n | 0 <= n < |values| ensures exists k: nat :: ChecklistItem(f, k, values[n]) {
          var k: nat :| k < |checklist.fields| && checklist.fields[k].value == values[n];
          assert ChecklistItem(f, k, values[n]);
        }
        assert values != [] ==> exists k: nat :: ChecklistItem(f, k, values[0]);
      }
    }
  }

  lemma MetMeans(f: seq<Field>)
    ensures MustAllMet(f).Done? <==> Evaluable(f)
    ensures MustAllMet(f).Done? ==>
      (MustAllMet(f).value <==> if AnyListed(f) then EveryMet(f) else Approves(f))
  {
    WordMeans(f);
    WordsApart();
    MustHavesMean(f);
    hide Find, DecisionWord, MustHaves, OwnList, ChecklistItem, Approves, Truthy, PositiveWord, Met;
    if MustHaves(f).Arr? {
      AllMetMeans(MustHaves(f).items);
      AllMetSays(MustHaves(f).items);
    }
  }

  lemma AllMetSays(items: seq<Value>)
    ensures (forall n :: 0 <= n < |items| ==> items[n].Obj?) ==> AllMet(items).Done?
  {
    AllMetMeans(items);
  }

  lemma ScoreMeans(f: seq<Field>)
    ensures ScoreTells(f, NumericScore(ScoreOf(f)))
    ensures ScoreOf(f).Null? <==>
      FirstScore(f).Null? && Under(f, "composite_score", "value").Null? && !Says(Get(f, "status"), WITHHOLDING)
  {
    KeyOfMeans(Get(f, "status"));
    NothingUnderNothing("value");
    hide Find, KeyOf, Says, NegativeStatus;
  }

  lemma HasNumberMeans(f: seq<Field>)
    ensures HasNumber(f) <==> NumericScore(ScoreOf(f)).Some?
  {
    ScoreMeans(f);
    var score := NumericScore(ScoreOf(f));
    hide Under, FirstScore, Says, ScoreOf, NumericScore;
    if score.Some? {
      var x := score.value;
      assert ScoreTells(f, Some(x));
    }
  }

  /** The reading of one output. It fails exactly when the output's own list of must-haves
      is no list, or has an item that is no object before the first unmet one; there is a
      signal exactly when the output has anything to go by; and the signal says what the
      output says. */
  lemma ExtractionTells(f: seq<Field>)
    ensures ExtractCvSignal(f).Done? <==> Evaluable(f)
    ensures ExtractCvSignal(f).Done? ==> (ExtractCvSignal(f).value.Some? <==> Speaks(f))
    ensures ExtractCvSignal(f).Done? && ExtractCvSignal(f).value.Some? ==>
      SignalTells(ExtractCvSignal(f).value.value, f)
  {
    MetMeans(f);
    WordMeans(f);
    MustHavesMean(f);
    ScoreMeans(f);
    WordsApart();
    KeyOfMeans(Get(f, "status"));
    SaidIsNotBlank(Get(f, "status"));
    hide Find, KeyOf, Says, NegativeStatus, MustAllMet, ScoreOf, MustHaves, DecisionWord, Truthy, AnyListed, EveryMet;
    hide Approves, Rejects, Blank, ScoreTells, NumericScore, Under, FirstScore, Stated, OwnList, Checkable;
    hide PositiveWord, NegativeWord, Evaluable;
  }

  lemma SaidIsNotBlank(v: Value)
    ensures Says(v, WITHHOLDING) ==> !Blank(v)
  {
    KeyOfMeans(v);
    WordsApart();
    hide KeyOf, Blank, Says, NegativeStatus;
  }
}
