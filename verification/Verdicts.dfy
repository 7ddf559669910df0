/** What an application's runs and their outputs amount to, and that finalisation says so. */
module Verdicts {
  import opened Options
  import opened Json
  import opened Text
  import opened Sums
  import opened Contracts
  import opened Statistics
  import opened Spread
  import opened CvScoring
  import opened CvReading
  import opened Finalize

  // ---- which artifact is the output ---------------------------------------------------------------

  predicate OutputFile(a: Artifact) {
    a.name == "output.json" && a.blobUri != ""
  }

  /** The name ends in `.json`, in any case. */
  predicate JsonFile(a: Artifact) {
    |a.name| >= 5 && SameLetters(a.name[|a.name| - 5..], ".json") && a.blobUri != ""
  }

  ghost predicate FirstOf<T(!new)>(all: seq<T>, good: T -> bool, k: nat) {
    k < |all| && good(all[k]) && forall l :: 0 <= l < k ==> !good(all[l])
  }

  /** The first `output.json`; where there is none, the first JSON file. */
  ghost predicate IsOutput(artifacts: seq<Artifact>, k: nat) {
    || FirstOf(artifacts, OutputFile, k)
    || (FirstOf(artifacts, JsonFile, k) && forall l :: 0 <= l < |artifacts| ==> !OutputFile(artifacts[l]))
  }

  ghost predicate Holds(artifacts: seq<Artifact>, k: nat, blobs: Blobs, fields: seq<Field>) {
    && k < |artifacts| && IsOutput(artifacts, k)
    && artifacts[k].blobUri in blobs && blobs[artifacts[k].blobUri] == Obj(fields)
  }

  lemma {:induction false} FirstNamedIs(artifacts: seq<Artifact>)
    ensures FirstNamed(artifacts).None? <==> forall l :: 0 <= l < |artifacts| ==> !OutputFile(artifacts[l])
    ensures FirstNamed(artifacts).Some? ==>
      exists k: nat :: FirstOf(artifacts, OutputFile, k) && artifacts[k] == FirstNamed(artifacts).value
  {
    if artifacts != [] {
      var rest := artifacts[1..];
      FirstNamedIs(rest);
      assert forall l :: 0 < l < |artifacts| ==> artifacts[l] == rest[l - 1];
      if OutputFile(artifacts[0]) {
        assert FirstOf(artifacts, OutputFile, 0);
      } else if FirstNamed(rest).Some? {
        var k: nat :| FirstOf(rest, OutputFile, k) && rest[k] == FirstNamed(rest).value;
        assert FirstOf(artifacts, OutputFile, k + 1);
      }
    }
  }

  lemma JsonFileIs(a: Artifact)
    ensures JsonFile(a) <==> EndsWith(Lower(a.name), ".json") && a.blobUri != ""
  {
    if |a.name| >= 5 {
      assert Lower(a.name)[|a.name| - 5..] == Lower(a.name[|a.name| - 5..]);
      LowerIs(a.name[|a.name| - 5..], ".json");
    }
  }

  lemma {:induction false} FirstJsonIs(artifacts: seq<Artifact>)
    ensures FirstJson(artifacts).None? <==> forall l :: 0 <= l < |artifacts| ==> !JsonFile(artifacts[l])
    ensures FirstJson(artifacts).Some? ==>
      exists k: nat :: FirstOf(artifacts, JsonFile, k) && artifacts[k] == FirstJson(artifacts).value
  {
    if artifacts != [] {
      hide EndsWith, Lower, JsonFile;
      var rest := artifacts[1..];
      FirstJsonIs(rest);
      JsonFileIs(artifacts[0]);
      assert forall l :: 0 < l < |artifacts| ==> artifacts[l] == rest[l - 1];
      if JsonFile(artifacts[0]) {
        assert FirstOf(artifacts, JsonFile, 0);
      } else if FirstJson(rest).Some? {
        var k: nat :| FirstOf(rest, JsonFile, k) && rest[k] == FirstJson(rest).value;
        assert FirstOf(artifacts, JsonFile, k + 1);
      }
    }
  }

  /** The output of a run is the object in the first `output.json` that has an address, or
      without one in the first JSON file that has. There is none when there is no such file,
      or what the chosen one's address leads to cannot be read or is no object. */
  lemma OutputRead(artifacts: seq<Artifact>, blobs: Blobs, fields: seq<Field>)
    ensures ReadOutputArtifact(artifacts, blobs) == Some(fields) <==>
      exists k: nat :: Holds(artifacts, k, blobs, fields)
  {
    hide FirstNamed, FirstJson, OutputFile, JsonFile;
    FirstNamedIs(artifacts);
    FirstJsonIs(artifacts);
    if FirstNamed(artifacts).Some? {
      var k: nat :| FirstOf(artifacts, OutputFile, k) && artifacts[k] == FirstNamed(artifacts).value;
      assert IsOutput(artifacts, k);
      assert ReadOutputArtifact(artifacts, blobs) == Some(fields) ==> Holds(artifacts, k, blobs, fields);
      forall l: nat | Holds(artifacts, l, blobs, fields) ensures l == k {
      }
    } else if FirstJson(artifacts).Some? {
      var k: nat :| FirstOf(artifacts, JsonFile, k) && artifacts[k] == FirstJson(artifacts).value;
      assert IsOutput(artifacts, k);
      assert ReadOutputArtifact(artifacts, blobs) == Some(fields) ==> Holds(artifacts, k, blobs, fields);
      forall l: nat | Holds(artifacts, l, blobs, fields) ensures l == k {
      }
    }
  }

  // ---- the signals of some runs ----------------------------------------------------------------------

  ghost predicate HasOutput(r: RunPayload, blobs: Blobs, fields: seq<Field>) {
    r.status == "Succeeded" && r.artifacts.Some? && exists k: nat :: Holds(r.artifacts.value, k, blobs, fields)
  }

  /** The run succeeded, in exactly that spelling, and its output says something. */
  ghost predicate RunSpeaks(r: RunPayload, blobs: Blobs) {
    exists fields :: HasOutput(r, blobs, fields) && Speaks(fields)
  }

  /** It has a number where the score is looked for. */
  ghost predicate RunScores(r: RunPayload, blobs: Blobs) {
    exists fields :: HasOutput(r, blobs, fields) && HasNumber(fields)
  }

  ghost predicate AnyScores(runs: seq<RunPayload>, blobs: Blobs) {
    exists j :: 0 <= j < |runs| && RunScores(runs[j], blobs)
  }

  /** Its must-haves do not stand in the way of its batch. */
  ghost predicate RunEvaluable(r: RunPayload, blobs: Blobs) {
    forall fields :: HasOutput(r, blobs, fields) ==> Evaluable(fields)
  }

  lemma RunsEvaluable(r: RunPayload, blobs: Blobs)
    ensures RunReadable(r, blobs) <==> RunEvaluable(r, blobs)
  {
    hide ReadOutputArtifact, MustHavesReadable, Evaluable, HasOutput, ExtractCvSignal;
    OnlyOutput(r, blobs);
    var out := ReadOutputArtifact(PayloadArtifacts(r), blobs);
    if Succeeded(r) && out.Some? {
      ExtractionTells(out.value);
      ExtractionSucceeds(out.value);
      assert HasOutput(r, blobs, out.value);
    }
  }

  ghost function SpeaksIn(blobs: Blobs): RunPayload -> bool {
    r => RunSpeaks(r, blobs)
  }

  ghost predicate SignalIs(s: Signal, r: RunPayload, blobs: Blobs) {
    exists fields :: HasOutput(r, blobs, fields) && SignalTells(s, fields)
  }

  ghost predicate SignalsAt(signals: seq<Signal>, runs: seq<RunPayload>, blobs: Blobs, places: seq<nat>) {
    && |signals| == |places|
    && forall m :: 0 <= m < |places| ==> places[m] < |runs| && SignalIs(signals[m], runs[places[m]], blobs)
  }

  /** One signal for each run that has something to say, in order, each saying what its own
      run's output says. */
  ghost predicate SignalsOfRuns(signals: seq<Signal>, runs: seq<RunPayload>, blobs: Blobs, places: seq<nat>) {
    Picks(runs, SpeaksIn(blobs), places) && SignalsAt(signals, runs, blobs, places)
  }

  lemma OneRunSignal(r: RunPayload, blobs: Blobs)
    requires ParseAll(OutputOf(r, blobs)).Done?
    ensures var s := ParseAll(OutputOf(r, blobs)).value;
      && |s| == (if RunSpeaks(r, blobs) then 1 else 0)
      && (RunSpeaks(r, blobs) ==> SignalIs(s[0], r, blobs))
  {
    hide ReadOutputArtifact, Holds, Speaks, SignalTells, ExtractCvSignal;
    var out := ReadOutputArtifact(PayloadArtifacts(r), blobs);
    OnlyOutput(r, blobs);
    if Succeeded(r) && out.Some? {
      ParseAllOne(out.value);
      ExtractionTells(out.value);
      hide ParseAll;
      assert HasOutput(r, blobs, out.value);
    }
  }

  lemma OnlyOutput(r: RunPayload, blobs: Blobs)
    ensures var out := ReadOutputArtifact(PayloadArtifacts(r), blobs);
      forall fields :: HasOutput(r, blobs, fields) <==> Succeeded(r) && out == Some(fields)
  {
    hide ReadOutputArtifact, Holds;
    NothingToRead(blobs);
    forall fields
      ensures HasOutput(r, blobs, fields) <==>
        Succeeded(r) && ReadOutputArtifact(PayloadArtifacts(r), blobs) == Some(fields)
    {
      OutputRead(PayloadArtifacts(r), blobs, fields);
    }
  }

  lemma NothingToRead(blobs: Blobs)
    ensures ReadOutputArtifact([], blobs).None?
  {
  }

  lemma SignalsBehind(runs: seq<RunPayload>, blobs: Blobs, tail: seq<Signal>, rest: seq<nat>, places: seq<nat>)
    requires runs != [] && SignalsAt(tail, runs[1..], blobs, rest) && |places| == |rest|
    requires forall m :: 0 <= m < |places| ==> places[m] == rest[m] + 1
    ensures SignalsAt(tail, runs, blobs, places)
  {
    hide SignalIs;
  }

  lemma SignalsToo(runs: seq<RunPayload>, blobs: Blobs, s: Signal, tail: seq<Signal>, rest: seq<nat>,
                   places: seq<nat>)
    requires runs != [] && SignalsAt(tail, runs[1..], blobs, rest) && SignalIs(s, runs[0], blobs)
    requires |places| == |rest| + 1 && places[0] == 0
    requires forall m :: 0 < m < |places| ==> places[m] == rest[m - 1] + 1
    ensures SignalsAt([s] + tail, runs, blobs, places)
  {
    hide SignalIs;
    SignalsBehind(runs, blobs, tail, rest, places[1..]);
    forall m | 0 <= m < |places| ensures places[m] < |runs| && SignalIs(([s] + tail)[m], runs[places[m]], blobs) {
      assert m > 0 ==> places[m] == places[1..][m - 1];
    }
  }

  lemma PicksSpeaking(runs: seq<RunPayload>, blobs: Blobs, rest: seq<nat>)
    requires runs != [] && Picks(runs[1..], SpeaksIn(blobs), rest)
    ensures Picks(runs, SpeaksIn(blobs), Onward(RunSpeaks(runs[0], blobs), rest))
  {
    hide RunSpeaks, Picks, Onward;
    assert SpeaksIn(blobs)(runs[0]) == RunSpeaks(runs[0], blobs);
    PicksFirst(runs, SpeaksIn(blobs), rest);
  }

  /** One run more in front. */
  lemma SignalsOnward(runs: seq<RunPayload>, blobs: Blobs, head: seq<Signal>, tail: seq<Signal>, rest: seq<nat>)
    returns (places: seq<nat>)
    requires runs != [] && SignalsOfRuns(tail, runs[1..], blobs, rest)
    requires |head| == if RunSpeaks(runs[0], blobs) then 1 else 0
    requires RunSpeaks(runs[0], blobs) ==> SignalIs(head[0], runs[0], blobs)
    ensures SignalsOfRuns(head + tail, runs, blobs, places)
  {
    hide Picks, RunSpeaks, SignalIs, SignalsAt, SpeaksIn, Onward;
    PicksSpeaking(runs, blobs, rest);
    places := Onward(RunSpeaks(runs[0], blobs), rest);
    if RunSpeaks(runs[0], blobs) {
      SignalsToo(runs, blobs, head[0], tail, rest, places);
      assert head == [head[0]];
    } else {
      SignalsBehind(runs, blobs, tail, rest, places);
      assert head + tail == tail;
    }
  }

  lemma NoSignals(blobs: Blobs)
    ensures ParseAll(OutputsOf([], blobs)) == Done([]) && SignalsOfRuns([], [], blobs, [])
  {
    hide RunSpeaks, SignalIs;
  }

  /** The parsed signals of the outputs are the signals of the runs. */
  lemma {:induction false} SignalsParsed(runs: seq<RunPayload>, blobs: Blobs) returns (places: seq<nat>)
    requires ParseAll(OutputsOf(runs, blobs)).Done?
    ensures SignalsOfRuns(ParseAll(OutputsOf(runs, blobs)).value, runs, blobs, places)
  {
    if runs == [] {
      places := [];
      NoSignals(blobs);
    } else {
      var first, tail := OutputOf(runs[0], blobs), OutputsOf(runs[1..], blobs);
      assert OutputsOf(runs, blobs) == first + tail;
      ParseAllAppend(first, tail);
      hide ParseAll, OutputsOf, OutputOf, SignalsOfRuns, SignalIs, RunSpeaks;
      OneRunSignal(runs[0], blobs);
      var rest := SignalsParsed(runs[1..], blobs);
      places := SignalsOnward(runs, blobs, ParseAll(first).value, ParseAll(tail).value, rest);
    }
  }

  // ---- their sum ---------------------------------------------------------------------------------------

  predicate HasScore(s: Signal) {
    s.score.Some?
  }

  ghost predicate ScoresAt(scores: seq<real>, signals: seq<Signal>, places: seq<nat>) {
    && |scores| == |places|
    && forall m :: 0 <= m < |places| ==> places[m] < |signals| && signals[places[m]].score == Some(scores[m])
  }

  lemma ScoresBehind(signals: seq<Signal>, tail: seq<real>, rest: seq<nat>, places: seq<nat>)
    requires signals != [] && ScoresAt(tail, signals[1..], rest) && |places| == |rest|
    requires forall m :: 0 <= m < |places| ==> places[m] == rest[m] + 1
    ensures ScoresAt(tail, signals, places)
  {
  }

  lemma ScoresToo(signals: seq<Signal>, x: real, tail: seq<real>, rest: seq<nat>, places: seq<nat>)
    requires signals != [] && ScoresAt(tail, signals[1..], rest) && signals[0].score == Some(x)
    requires |places| == |rest| + 1 && places[0] == 0
    requires forall m :: 0 < m < |places| ==> places[m] == rest[m - 1] + 1
    ensures ScoresAt([x] + tail, signals, places)
  {
    ScoresBehind(signals, tail, rest, places[1..]);
    forall m | 0 <= m < |places| ensures places[m] < |signals| && signals[places[m]].score == Some(([x] + tail)[m]) {
      assert m > 0 ==> places[m] == places[1..][m - 1];
    }
  }

  lemma {:induction false} ScoresPicked(signals: seq<Signal>) returns (places: seq<nat>)
    ensures Picks(signals, HasScore, places) && ScoresAt(Scores(signals), signals, places)
  {
    if signals == [] {
      places := [];
    } else {
      var rest := ScoresPicked(signals[1..]);
      PicksFirst(signals, HasScore, rest);
      places := Onward(HasScore(signals[0]), rest);
      hide ScoresAt, Picks, Onward;
      if HasScore(signals[0]) {
        ScoresToo(signals, signals[0].score.value, Scores(signals[1..]), rest, places);
      } else {
        ScoresBehind(signals, Scores(signals[1..]), rest, places);
      }
    }
  }

  /** The signals that decide d. */
  ghost function Voters(signals: seq<Signal>, d: Decision): set<int> {
    set i | 0 <= i < |signals| && signals[i].decision == d
  }

  lemma {:induction false} VotesAreVoters(signals: seq<Signal>, d: Decision)
    ensures Votes(signals, d) == |Voters(signals, d)|
  {
    var bit := (s: Signal) => if s.decision == d then 1 else 0;
    VotesAreBits(signals, d, bit);
    BitsCounted(signals, bit);
    assert Ones(signals, bit) == Voters(signals, d);
  }

  lemma {:induction false} VotesAreBits(signals: seq<Signal>, d: Decision, bit: Signal -> int)
    requires forall s :: bit(s) == if s.decision == d then 1 else 0
    ensures Votes(signals, d) == Sum(signals, bit)
  {
    if signals != [] {
      VotesAreBits(signals[1..], d, bit);
    }
  }

  /** The final score is the median of the scores there are and the variance theirs, no
      decision was more frequent than the final one, and all must-have results hold. */
  ghost predicate SummaryTells(a: Aggregate, signals: seq<Signal>) {
    && a.runsCount == |signals|
    && (a.mustHaveResult <==> forall i :: 0 <= i < |signals| ==> signals[i].mustAllMet)
    && Voters(signals, a.finalDecision) != {}
    && (forall d :: |Voters(signals, d)| <= |Voters(signals, a.finalDecision)|)
    && exists scores, places ::
         Picks(signals, HasScore, places) && ScoresAt(scores, signals, places) && Spans(a, scores)
  }

  ghost predicate Spans(a: Aggregate, scores: seq<real>) {
    && (a.finalScore.Some? <==> scores != [])
    && (scores != [] ==> a.finalScore == Some(Median(scores)))
    && a.variance == if |scores| > 1 then PVariance(scores) else 0.0
  }

  lemma SummarySays(signals: seq<Signal>, artifacts: seq<SourceArtifact>, approveFirst: bool)
    requires signals != []
    ensures SummaryTells(Summary(signals, artifacts, approveFirst), signals)
    ensures Summary(signals, artifacts, approveFirst).sourceArtifacts == artifacts
  {
    var a := Summary(signals, artifacts, approveFirst);
    var places := ScoresPicked(signals);
    hide ScoresAt, Picks, Median, PVariance, Votes;
    assert Spans(a, Scores(signals));
    hide Scores;
    FinalDecisionIsMode(signals, approveFirst);
    VotesAreVoters(signals, Approve);
    VotesAreVoters(signals, Reject);
    hide Mode;
    var i :| 0 <= i < |signals| && signals[i].decision == a.finalDecision;
    assert i in Voters(signals, a.finalDecision);
  }

  // ---- the sources --------------------------------------------------------------------------------------

  ghost function OwnArtifacts(r: RunPayload): seq<Artifact> {
    if r.status == "Succeeded" && r.artifacts.Some? then r.artifacts.value else []
  }

  /** How many artifacts the succeeded ones among the first j runs have. */
  ghost function Offset(runs: seq<RunPayload>, j: nat): nat
    requires j <= |runs|
  {
    if j == 0 then 0 else Offset(runs, j - 1) + |OwnArtifacts(runs[j - 1])|
  }

  ghost predicate SourceTells(sources: seq<SourceArtifact>, at: nat, a: Artifact) {
    at < |sources| && sources[at].name == a.name && sources[at].blobUri == a.blobUri && sources[at].sha256 == a.sha256
  }

  ghost predicate SourcesUpTo(sources: seq<SourceArtifact>, runs: seq<RunPayload>, n: nat)
    requires n <= |runs|
  {
    forall j, k :: 0 <= j < n && 0 <= k < |OwnArtifacts(runs[j])| ==>
      SourceTells(sources, Offset(runs, j) + k, OwnArtifacts(runs[j])[k])
  }

  /** The sources are the artifacts of the succeeded runs, run by run and in order. */
  ghost predicate SourcesTell(sources: seq<SourceArtifact>, runs: seq<RunPayload>) {
    |sources| == Offset(runs, |runs|) && SourcesUpTo(sources, runs, |runs|)
  }

  lemma SourcesOfOne(r: RunPayload)
    ensures |SourceOf(r)| == |OwnArtifacts(r)|
    ensures forall k :: 0 <= k < |SourceOf(r)| ==> SourceOf(r)[k] == AsSource(OwnArtifacts(r)[k])
  {
  }

  lemma OneMoreSource(before: seq<SourceArtifact>, last: seq<SourceArtifact>, runs: seq<RunPayload>, n: nat)
    requires n < |runs| && SourcesUpTo(before, runs, n) && |before| == Offset(runs, n)
    requires |last| == |OwnArtifacts(runs[n])|
    requires forall k :: 0 <= k < |last| ==> last[k] == AsSource(OwnArtifacts(runs[n])[k])
    ensures SourcesUpTo(before + last, runs, n + 1)
  {
    hide Offset, OwnArtifacts;
    forall j, k | 0 <= j < n + 1 && 0 <= k < |OwnArtifacts(runs[j])|
      ensures SourceTells(before + last, Offset(runs, j) + k, OwnArtifacts(runs[j])[k])
    {
      if j < n {
        assert SourceTells(before, Offset(runs, j) + k, OwnArtifacts(runs[j])[k]);
      } else {
        assert (before + last)[|before| + k] == last[k];
      }
    }
  }

  lemma SourcesStep(runs: seq<RunPayload>, n: nat)
    requires n < |runs|
    ensures SourcesOf(runs[..n + 1]) == SourcesOf(runs[..n]) + SourceOf(runs[n])
  {
    hide *;
    assert runs[..n + 1] == runs[..n] + [runs[n]];
    SourcesAppend(runs[..n], [runs[n]]);
    OneRun(runs[n], map[]);
  }

  lemma NoSources(runs: seq<RunPayload>)
    ensures SourcesOf(runs[..0]) == [] && Offset(runs, 0) == 0 && SourcesUpTo([], runs, 0)
  {
  }

  lemma OffsetStep(runs: seq<RunPayload>, n: nat)
    requires n < |runs|
    ensures Offset(runs, n + 1) == Offset(runs, n) + |OwnArtifacts(runs[n])|
  {
  }

  lemma {:induction false} SourcesListed(runs: seq<RunPayload>, n: nat)
    requires n <= |runs|
    ensures |SourcesOf(runs[..n])| == Offset(runs, n) && SourcesUpTo(SourcesOf(runs[..n]), runs, n)
  {
    hide *;
    if n == 0 {
      NoSources(runs);
    } else {
      SourcesListed(runs, n - 1);
      SourcesStep(runs, n - 1);
      OffsetStep(runs, n - 1);
      SourcesOfOne(runs[n - 1]);
      OneMoreSource(SourcesOf(runs[..n - 1]), SourceOf(runs[n - 1]), runs, n - 1);
    }
  }

  // ---- the aggregate ------------------------------------------------------------------------------------

  /** What an application's runs amount to: nothing when none of them says anything. */
  ghost predicate AggregateTells(a: Option<Aggregate>, runs: seq<RunPayload>, blobs: Blobs) {
    exists signals, places :: SignalsOfRuns(signals, runs, blobs, places) && SumsUp(a, signals, runs)
  }

  ghost predicate SumsUp(a: Option<Aggregate>, signals: seq<Signal>, runs: seq<RunPayload>) {
    && (a.Some? <==> signals != [])
    && (a.Some? ==> SummaryTells(a.value, signals) && SourcesTell(a.value.sourceArtifacts, runs))
  }

  /** The aggregate finalisation computes is the one the runs and their outputs call for. */
  lemma AggregateSays(runs: seq<RunPayload>, blobs: Blobs, approveFirst: bool)
    requires AggregateRuns(runs, blobs, approveFirst).Done?
    ensures AggregateTells(AggregateRuns(runs, blobs, approveFirst).value, runs, blobs)
  {
    hide ParseAll, OutputsOf, SourcesOf, Summary, SummaryTells, SignalsOfRuns, SourcesTell;
    var places := SignalsParsed(runs, blobs);
    var signals := ParseAll(OutputsOf(runs, blobs)).value;
    AllSources(runs);
    if signals != [] {
      SummarySays(signals, SourcesOf(runs), approveFirst);
    }
  }

  lemma AllSources(runs: seq<RunPayload>)
    ensures SourcesTell(SourcesOf(runs), runs)
  {
    assert runs[..|runs|] == runs;
    SourcesListed(runs, |runs|);
  }

  // ---- the block of one application ------------------------------------------------------------------------

  /** A listed run shows the place it was minted for and what its own result said. */
  ghost predicate ListsResult(run: RunPayload, r: RunResult, runIndex: nat, documentId: string) {
    && run.runId == r.runId && run.runIndex == runIndex && run.documentId == documentId
    && run.status == r.status && run.durationMs == r.durationMs
    && run.tokensPrompt == r.tokensPrompt && run.tokensCompletion == r.tokensCompletion
    && run.correlationId == r.correlationId && run.traceparent == r.traceparent
    && run.artifacts == r.artifacts && run.errorMessage == r.errorMessage
  }

  ghost predicate RunsTell(runs: seq<RunPayload>, b: Batch, i: nat, events: map<string, RunResult>)
    requires i < |b.cvs| && HasEvents(b, events)
  {
    && |runs| == b.runCount
    && forall j :: 0 <= j < b.runCount ==>
         && runs[j].runId == RunIdOf(b, i, j)
         && ListsResult(runs[j], events[RunIdOf(b, i, j)], j, b.cvs[i].documentId)
  }

  /** The run did not succeed, in exactly that spelling, and says why. */
  ghost predicate Complains(run: RunPayload) {
    run.status != "Succeeded" && run.errorMessage.Some? && run.errorMessage.value != ""
  }

  ghost predicate ErrorTells(error: Option<string>, runs: seq<RunPayload>) {
    if error.None? then forall j :: 0 <= j < |runs| ==> !Complains(runs[j])
    else exists j: nat :: FirstComplains(runs, j) && runs[j].errorMessage == error
  }

  ghost predicate FirstComplains(runs: seq<RunPayload>, j: nat) {
    j < |runs| && Complains(runs[j]) && forall l :: 0 <= l < j ==> !Complains(runs[l])
  }

  lemma FirstErrorSays(runs: seq<RunPayload>)
    ensures ErrorTells(FirstError(runs), runs)
  {
    var error := FirstError(runs);
    hide FirstError;
    assert forall j :: 0 <= j < |runs| ==> (HasError(runs[j]) <==> Complains(runs[j]));
    if error.Some? {
      var k: nat :| IsFirstError(runs, k) && runs[k].errorMessage == error;
      assert FirstComplains(runs, k);
    }
  }

  /** A block of the final document, in terms of the results of its own application's runs
      and of what their outputs hold. */
  ghost predicate BlockTells(block: CvBlock, b: Batch, i: nat, events: map<string, RunResult>, blobs: Blobs)
    requires i < |b.cvs| && HasEvents(b, events)
  {
    && block.applicationId == b.cvs[i].applicationId && block.documentId == b.cvs[i].documentId
    && RunsTell(block.runs, b, i, events)
    && ErrorTells(block.error, block.runs)
    && AggregateTells(block.aggregated, block.runs, blobs)
  }

  lemma ExpectedRunsTell(b: Batch, i: nat, events: map<string, RunResult>)
    requires i < |b.cvs| && HasEvents(b, events)
    ensures RunsTell(ExpectedRuns(b, i, events), b, i, events)
  {
    hide RunIdOf;
  }

  /** The document says of every application what its own runs call for. */
  lemma DocumentTells(b: Batch, events: map<string, RunResult>, blobs: Blobs, ties: nat -> bool)
    requires HasEvents(b, events) && BuildDocument(b, events, blobs, ties).Done?
    ensures var cvs := BuildDocument(b, events, blobs, ties).value.cvs;
      |cvs| == |b.cvs| && forall i :: 0 <= i < |b.cvs| ==> BlockTells(cvs[i], b, i, events, blobs)
  {
    hide BuildDocument, HasEvents, ExpectedRuns, AggregateRuns, FirstError, RunsTell, ErrorTells, AggregateTells;
    BlockCount(b, events, blobs, ties);
    forall i | 0 <= i < |b.cvs|
      ensures BlockTells(BuildDocument(b, events, blobs, ties).value.cvs[i], b, i, events, blobs)
    {
      BlockContents(b, events, blobs, ties, i);
      var runs := ExpectedRuns(b, i, events);
      ExpectedRunsTell(b, i, events);
      FirstErrorSays(runs);
      AggregateSays(runs, blobs, ties(i));
    }
  }
}
