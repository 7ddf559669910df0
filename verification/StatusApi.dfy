/** What a client polling a batch is told, before and after its history is purged. */
module StatusApi {
  import opened Options
  import opened Json
  import opened Contracts
  import opened Progress
  import opened CvScoring
  import CvReading
  import Verdicts
  import opened Finalize

  // ---- the orchestration host's answer -------------------------------------------------------------

  /** `Other` stands for every state the mapping does not name. */
  datatype RuntimeStatus = Pending | Running | Completed | Failed | Terminated | Canceled | Other

  /** An output is handed over decoded or as text; `decoded` is what the text parses to. */
  datatype Output = Document(doc: ResultDoc) | Text(text: string, decoded: Option<ResultDoc>)

  datatype Instance = Instance(runtimeStatus: RuntimeStatus, customStatus: Option<Snapshot>, output: Option<Output>)

  datatype ErrorInfo = ErrorInfo(code: string, message: string)

  datatype Raw = Raw(
    status: string,
    progress: Option<Snapshot>,
    result: Option<seq<CvResult>>,
    error: Option<ErrorInfo>,
    retryAfterSeconds: Option<nat>)

  /** A block as it is read back from JSON: any field of an aggregate may be null. */
  datatype CvResult = CvResult(
    applicationId: string,
    documentId: string,
    runs: seq<RunPayload>,
    aggregated: Option<AggregatedOutcome>,
    error: Option<string>)

  datatype AggregatedOutcome = AggregatedOutcome(
    finalScore: Option<real>,
    finalDecision: Option<Decision>,
    mustHaveResult: Option<bool>,
    variance: real,
    sourceArtifacts: seq<SourceArtifact>,
    runsCount: nat)

  function PublishAggregate(a: Aggregate): AggregatedOutcome {
    AggregatedOutcome(a.finalScore, Some(a.finalDecision), Some(a.mustHaveResult), a.variance, a.sourceArtifacts,
        a.runsCount)
  }

  function PublishBlock(block: CvBlock): CvResult {
    CvResult(block.applicationId, block.documentId, block.runs,
             if block.aggregated.Some? then Some(PublishAggregate(block.aggregated.value)) else None, block.error)
  }

  function Publish(doc: ResultDoc): (cvs: seq<CvResult>)
    ensures |cvs| == |doc.cvs|
  {
    seq(|doc.cvs|, i requires 0 <= i < |doc.cvs| => PublishBlock(doc.cvs[i]))
  }

  function StatusName(s: RuntimeStatus): string {
    match s
    case Pending => "queued"
    case Running => "running"
    case Completed => "completed"
    case Failed => "failed"
    case Terminated => "cancelled"
    case Canceled => "cancelled"
    case Other => "running"
  }

  /** Raises when a completed output is text that is not JSON. */
  function NormalizeStatus(s: Instance): Outcome<Raw> {
    var status := StatusName(s.runtimeStatus);
    var error := if status == "failed" then
      Some(ErrorInfo("ORCHESTRATION_FAILED",
                     if s.output.Some? && s.output.value.Text? && s.output.value.text != "" then s.output.value.text
                     else "orchestration failed"))
      else None;
    var retry := if status in {"queued", "running"} then Some(10) else None;
    if status == "completed" && s.output.Some? then
      match s.output.value
      case Document(doc) => Done(Raw(status, s.customStatus, Some(Publish(doc)), error, retry))
      case Text(_, Some(doc)) => Done(Raw(status, s.customStatus, Some(Publish(doc)), error, retry))
      case Text(_, None) => Raised("JSONDecodeError")
    else Done(Raw(status, s.customStatus, None, error, retry))
  }

  // ---- the API's answer -------------------------------------------------------------------------------

  datatype Answer =
    | Response(status: string, progress: Option<Snapshot>, result: Option<seq<CvResult>>, error: Option<ErrorInfo>,
        retryAfterSeconds: Option<nat>)
    | Problem(code: nat, detail: string)

  const MISSING_AGGREGATE := "Completed result missing aggregated block."
  const MISSING_FIELDS := "Completed result missing required aggregate fields."

  function Complaint(cv: CvResult): Option<string> {
    if cv.aggregated.None? then Some(MISSING_AGGREGATE)
    else
      var a := cv.aggregated.value;
      if a.finalScore.None? || a.finalDecision.None? || a.mustHaveResult.None? then Some(MISSING_FIELDS) else None
  }

  /** The complaint about the first block that gives rise to one. */
  function FirstComplaint(cvs: seq<CvResult>): Option<string> {
    if cvs == [] then None
    else if Complaint(cvs[0]).Some? then Complaint(cvs[0])
    else FirstComplaint(cvs[1..])
  }

  function ToStatusResponse(raw: Raw): Answer {
    var complaint := if raw.result.Some? && raw.status == "completed" then FirstComplaint(raw.result.value) else None;
    if complaint.Some? then Problem(502, complaint.value)
    else Response(raw.status, raw.progress, raw.result, raw.error, raw.retryAfterSeconds)
  }

  /** The two places an answer can come from: the orchestration history and, when that has
      nothing (any more), the container of final documents, if an account is configured. */
  datatype Platform = Platform(history: map<string, Instance>, documents: map<string, ResultDoc>, account: bool)

  function Answered(s: Instance): Answer {
    match NormalizeStatus(s)
    case Raised(_) => Problem(502, "Upstream error")
    case Done(raw) => ToStatusResponse(raw)
  }

  function GetBatchStatus(p: Platform, id: string): Answer {
    if id in p.history then Answered(p.history[id])
    else if p.account && id in p.documents then
      ToStatusResponse(Raw("completed", None, Some(Publish(p.documents[id])), None, None))
    else Problem(404, "not found")
  }

  /** What a client is told of an instance, by the state it is in: what it is called, that a
      result comes with a completed one and an error with a failed one, and when to ask again
      with one that has not ended. Only a completed one can be refused. */
  lemma EachStateTells(s: Instance)
    ensures Answered(s).Problem? ==> s.runtimeStatus.Completed? && Answered(s).code == 502
    ensures Answered(s).Response? ==>
      var a := Answered(s);
      && a.status in {"queued", "running", "completed", "failed", "cancelled"}
      && (a.status == "queued" <==> s.runtimeStatus.Pending?)
      && (a.status == "completed" <==> s.runtimeStatus.Completed?)
      && (a.status == "failed" <==> s.runtimeStatus.Failed?)
      && (a.status == "cancelled" <==> s.runtimeStatus in {Terminated, Canceled})
      && a.progress == s.customStatus
      && (a.result.Some? <==> s.runtimeStatus.Completed? && s.output.Some?)
      && (a.error.Some? <==> s.runtimeStatus.Failed?)
      && (a.error.Some? && s.output.Some? && s.output.value.Text? && s.output.value.text != "" ==>
           a.error.value.message == s.output.value.text)
      && a.retryAfterSeconds == if s.runtimeStatus in {Completed, Failed, Terminated, Canceled} then None else Some(10)
  {
    hide Publish, FirstComplaint;
  }

  /** A batch is not found exactly when neither the history nor a readable container has it. */
  lemma NotFoundExactly(p: Platform, id: string)
    ensures GetBatchStatus(p, id).Problem? && GetBatchStatus(p, id).code == 404 <==>
      id !in p.history && !(p.account && id in p.documents)
  {
    hide Publish, FirstComplaint;
  }

  /** The container's answer is that of a completed instance without progress. */
  lemma AnswerFromContainer(p: Platform, id: string)
    requires id !in p.history && p.account && id in p.documents
    ensures GetBatchStatus(p, id) == Answered(Instance(Completed, None, Some(Document(p.documents[id]))))
  {
    hide Publish, FirstComplaint;
  }

  // ---- purging ------------------------------------------------------------------------------------------

  function Purged(p: Platform, id: string): Platform {
    p.(history := p.history - {id})
  }

  /** A completed instance returned the very document it had stored. */
  ghost predicate Coherent(history: map<string, Instance>, documents: map<string, ResultDoc>) {
    forall id :: id in history && history[id].runtimeStatus.Completed? ==>
      id in documents && history[id].output == Some(Document(documents[id]))
  }

  /** The same answer as far as status and result go, or the same refusal. */
  predicate SameAnswer(a: Answer, c: Answer) {
    if a.Response? && c.Response? then a.status == c.status && a.result == c.result else a == c
  }

  /** Purging an instance's history goes unnoticed exactly for completed instances, and as
      long as the container can be read. For any other the answer changes: to `not found`,
      or to the outcome of a batch that never finished when it had stored its document. */
  lemma PurgeTransparency(p: Platform, id: string)
    requires Coherent(p.history, p.documents) && id in p.history
    ensures SameAnswer(GetBatchStatus(p, id), GetBatchStatus(Purged(p, id), id))
      <==> p.history[id].runtimeStatus.Completed? && p.account
  {
    hide FirstComplaint, Publish;
    var s := p.history[id];
    assert id !in Purged(p, id).history;
    if !s.runtimeStatus.Completed? {
      assert StatusName(s.runtimeStatus) != "completed";
    }
  }

  /** What a client may still see after a purge although the batch did not complete. */
  lemma PurgeRevealsUnfinished(p: Platform, id: string)
    requires id in p.history && !p.history[id].runtimeStatus.Completed?
    requires p.account && id in p.documents && FirstComplaint(Publish(p.documents[id])).None?
    ensures GetBatchStatus(p, id).Response? && GetBatchStatus(p, id).status != "completed"
    ensures GetBatchStatus(Purged(p, id), id).Response? && GetBatchStatus(Purged(p, id), id).status == "completed"
  {
  }

  // ---- servability ----------------------------------------------------------------------------------------

  /** The run succeeded, in exactly that spelling, its output can be read, and the output
      holds a number where the score is looked for. */
  predicate Scored(r: RunPayload, blobs: Blobs) {
    var out := ReadOutputArtifact(PayloadArtifacts(r), blobs);
    Succeeded(r) && out.Some? && NumericScore(ScoreOf(out.value)).Some?
  }

  /** That is a number under one of the score keys, or the zero of a withheld score. */
  lemma ScoredTells(r: RunPayload, blobs: Blobs)
    ensures Scored(r, blobs) <==> Verdicts.RunScores(r, blobs)
  {
    hide ReadOutputArtifact, ScoreOf, NumericScore, CvReading.HasNumber, Verdicts.HasOutput;
    Verdicts.OnlyOutput(r, blobs);
    var out := ReadOutputArtifact(PayloadArtifacts(r), blobs);
    if Succeeded(r) && out.Some? {
      CvReading.HasNumberMeans(out.value);
      assert Verdicts.HasOutput(r, blobs, out.value);
    }
  }

  lemma AnyScored(runs: seq<RunPayload>, blobs: Blobs)
    ensures HasScoredRun(runs, blobs) <==> Verdicts.AnyScores(runs, blobs)
  {
    hide Scored, Verdicts.RunScores;
    forall j | 0 <= j < |runs| ensures Scored(runs[j], blobs) <==> Verdicts.RunScores(runs[j], blobs) {
      ScoredTells(runs[j], blobs);
    }
  }

  /** The run succeeded and its output says anything at all. */
  predicate Signalled(r: RunPayload, blobs: Blobs) {
    var out := ReadOutputArtifact(PayloadArtifacts(r), blobs);
    Succeeded(r) && out.Some? && ExtractCvSignal(out.value).Done? && ExtractCvSignal(out.value).value.Some?
  }

  lemma ScoreIsSignal(output: seq<Field>)
    requires ExtractCvSignal(output).Done?
    ensures NumericScore(ScoreOf(output)).Some? <==>
      ExtractCvSignal(output).value.Some? && ExtractCvSignal(output).value.value.score.Some?
  {
    hide MustAllMet, MustHaves, DecisionWord, KeyOf, ScoreOf;
  }

  ghost predicate HasScoredRun(runs: seq<RunPayload>, blobs: Blobs) {
    exists j :: 0 <= j < |runs| && Scored(runs[j], blobs)
  }

  ghost predicate HasSignalledRun(runs: seq<RunPayload>, blobs: Blobs) {
    exists j :: 0 <= j < |runs| && Signalled(runs[j], blobs)
  }

  lemma HasSplits(runs: seq<RunPayload>, blobs: Blobs)
    requires runs != []
    ensures HasScoredRun(runs, blobs) <==> Scored(runs[0], blobs) || HasScoredRun(runs[1..], blobs)
    ensures HasSignalledRun(runs, blobs) <==> Signalled(runs[0], blobs) || HasSignalledRun(runs[1..], blobs)
  {
    hide Scored, Signalled;
    var rest := runs[1..];
    assert forall j :: 0 < j < |runs| ==> runs[j] == rest[j - 1];
    assert forall j :: 0 <= j < |rest| ==> rest[j] == runs[j + 1];
  }

  lemma {:induction false} SignalsOf(runs: seq<RunPayload>, blobs: Blobs)
    requires ParseAll(OutputsOf(runs, blobs)).Done?
    ensures ParseAll(OutputsOf(runs, blobs)).value != [] <==> HasSignalledRun(runs, blobs)
    ensures Scores(ParseAll(OutputsOf(runs, blobs)).value) != [] <==> HasScoredRun(runs, blobs)
  {
    if runs != [] {
      hide ReadOutputArtifact, ScoreOf, ExtractCvSignal, HasScoredRun, HasSignalledRun, Scores;
      HasSplits(runs, blobs);
      var rest, first := OutputsOf(runs[1..], blobs), ReadOutputArtifact(PayloadArtifacts(runs[0]), blobs);
      if Succeeded(runs[0]) && first.Some? {
        assert OutputsOf(runs, blobs) == [first.value] + rest;
        ParseFirst(first.value, rest);
        SignalsOf(runs[1..], blobs);
        ScoreIsSignal(first.value);
        SignalFirst(first.value, rest);
      } else {
        assert OutputsOf(runs, blobs) == rest;
        SignalsOf(runs[1..], blobs);
      }
    }
  }

  lemma ParseFirst(output: seq<Field>, rest: seq<seq<Field>>)
    ensures ParseAll([output] + rest).Done? <==> ExtractCvSignal(output).Done? && ParseAll(rest).Done?
  {
    hide ExtractCvSignal;
    assert ([output] + rest)[1..] == rest;
  }

  lemma SignalFirst(output: seq<Field>, rest: seq<seq<Field>>)
    requires ExtractCvSignal(output).Done? && ParseAll(rest).Done?
    ensures ParseAll([output] + rest).Done?
    ensures var all, s := ParseAll([output] + rest).value, ExtractCvSignal(output).value;
      && (all != [] <==> s.Some? || ParseAll(rest).value != [])
      && (Scores(all) != [] <==> (s.Some? && s.value.score.Some?) || Scores(ParseAll(rest).value) != [])
  {
    hide ExtractCvSignal;
    assert ([output] + rest)[1..] == rest;
    var all, s := ParseAll([output] + rest).value, ExtractCvSignal(output).value;
    if s.Some? {
      assert all[0] == s.value && all[1..] == ParseAll(rest).value;
    } else {
      assert all == ParseAll(rest).value;
    }
  }

  /** What is wrong with one application of a finished batch, if anything, in terms of its runs. */
  ghost predicate ComplaintIs(cvs: seq<CvResult>, i: nat, runs: seq<RunPayload>, blobs: Blobs) {
    && i < |cvs|
    && Complaint(cvs[i]) == if HasScoredRun(runs, blobs) then None
                            else if HasSignalledRun(runs, blobs) then Some(MISSING_FIELDS)
                            else Some(MISSING_AGGREGATE)
  }

  /** Of the required fields only the score can be missing. */
  lemma BlockComplaint(b: Batch, events: map<string, RunResult>, blobs: Blobs, ties: nat -> bool, i: nat)
    requires HasEvents(b, events) && BuildDocument(b, events, blobs, ties).Done? && i < |b.cvs|
    ensures var cvs := Publish(BuildDocument(b, events, blobs, ties).value);
      && ComplaintIs(cvs, i, ExpectedRuns(b, i, events), blobs)
      && (Complaint(cvs[i]) == Some(MISSING_FIELDS) ==>
           && cvs[i].aggregated.value.finalScore.None?
           && cvs[i].aggregated.value.finalDecision.Some? && cvs[i].aggregated.value.mustHaveResult.Some?)
  {
    hide BuildDocument, HasEvents, ExpectedRuns, FirstError, OutputsOf, SourcesOf, ParseAll, Scores, Signalled, Scored;
    BlockContents(b, events, blobs, ties, i);
    SignalsOf(ExpectedRuns(b, i, events), blobs);
    AggregateComplaint(OutputsOf(ExpectedRuns(b, i, events), blobs), SourcesOf(ExpectedRuns(b, i, events)), ties(i));
  }

  lemma AggregateComplaint(outputs: seq<seq<Field>>, sources: seq<SourceArtifact>, approveFirst: bool)
    requires CvAggregate(outputs, sources, approveFirst).Done?
    ensures ParseAll(outputs).Done?
    ensures var parsed, a := ParseAll(outputs).value, CvAggregate(outputs, sources, approveFirst).value;
      && (a.Some? <==> parsed != []) && (a.Some? ==> (a.value.finalScore.Some? <==> Scores(parsed) != []))
  {
    hide ParseAll, Scores;
  }

  ghost predicate IsFirstComplaint(cvs: seq<CvResult>, k: nat) {
    k < |cvs| && Complaint(cvs[k]).Some? && forall l :: 0 <= l < k ==> Complaint(cvs[l]).None?
  }

  lemma {:induction false} FirstComplaintMeans(cvs: seq<CvResult>)
    ensures FirstComplaint(cvs).None? <==> forall k :: 0 <= k < |cvs| ==> Complaint(cvs[k]).None?
    ensures FirstComplaint(cvs).Some? ==>
      exists k: nat :: IsFirstComplaint(cvs, k) && Complaint(cvs[k]) == FirstComplaint(cvs)
  {
    hide Complaint;
    if cvs != [] {
      var rest := cvs[1..];
      FirstComplaintMeans(rest);
      assert forall k :: 0 < k < |cvs| ==> cvs[k] == rest[k - 1];
      assert forall k :: 0 <= k < |rest| ==> rest[k] == cvs[k + 1];
      if Complaint(cvs[0]).Some? {
        assert IsFirstComplaint(cvs, 0);
      } else if FirstComplaint(rest).Some? {
        var k: nat :| IsFirstComplaint(rest, k) && Complaint(rest[k]) == FirstComplaint(rest);
        assert IsFirstComplaint(cvs, k + 1);
      }
    }
  }

  /** The applications before the i-th all have a scored run, and the i-th has none. */
  ghost predicate FirstUnscored(b: Batch, events: map<string, RunResult>, blobs: Blobs, i: nat)
    requires HasEvents(b, events)
  {
    && i < |b.cvs| && !HasScoredRun(ExpectedRuns(b, i, events), blobs)
    && forall k :: 0 <= k < i ==> HasScoredRun(ExpectedRuns(b, k, events), blobs)
  }

  /** The refusal names what is missing in the first application without a scored run. */
  ghost predicate RefusedFor(b: Batch, events: map<string, RunResult>, blobs: Blobs, i: nat, answer: Answer)
    requires HasEvents(b, events)
  {
    && FirstUnscored(b, events, blobs, i)
    && answer == Problem(502, if HasSignalledRun(ExpectedRuns(b, i, events), blobs)
                              then "Completed result missing required aggregate fields."
                              else "Completed result missing aggregated block.")
  }

  lemma AnswerOfCompleted(doc: ResultDoc, progress: Option<Snapshot>)
    ensures Answered(Instance(Completed, progress, Some(Document(doc)))) ==
      match FirstComplaint(Publish(doc))
      case Some(c) => Problem(502, c)
      case None => Response("completed", progress, Some(Publish(doc)), None, None)
  {
    hide Publish, FirstComplaint;
  }

  lemma PublishSize(doc: ResultDoc)
    ensures |Publish(doc)| == |doc.cvs|
  {
  }

  /** A completed batch is served exactly when every application has a run that succeeded
      with a readable output and a numeric score; otherwise the refusal tells whether the
      first application without one has any signal at all. */
  lemma Servable(b: Batch, events: map<string, RunResult>, blobs: Blobs, ties: nat -> bool, progress: Option<Snapshot>)
    requires HasEvents(b, events) && BuildDocument(b, events, blobs, ties).Done?
    ensures var doc := BuildDocument(b, events, blobs, ties).value;
      var answer := Answered(Instance(Completed, progress, Some(Document(doc))));
      && (answer.Response? <==> forall i :: 0 <= i < |b.cvs| ==> HasScoredRun(ExpectedRuns(b, i, events), blobs))
      && (answer.Response? ==> answer == Response("completed", progress, Some(Publish(doc)), None, None))
      && (answer.Problem? ==> exists i: nat :: RefusedFor(b, events, blobs, i, answer))
  {
    hide HasScoredRun, HasSignalledRun, Complaint, FirstComplaint, Publish, BuildDocument, HasEvents, ExpectedRuns;
    hide Answered;
    var cvs := Publish(BuildDocument(b, events, blobs, ties).value);
    AnswerOfCompleted(BuildDocument(b, events, blobs, ties).value, progress);
    FirstComplaintMeans(cvs);
    BlockCount(b, events, blobs, ties);
    PublishSize(BuildDocument(b, events, blobs, ties).value);
    forall i | 0 <= i < |b.cvs| ensures ComplaintIs(cvs, i, ExpectedRuns(b, i, events), blobs) {
      BlockComplaint(b, events, blobs, ties, i);
    }
    if FirstComplaint(cvs).Some? {
      var k: nat :| IsFirstComplaint(cvs, k) && Complaint(cvs[k]) == FirstComplaint(cvs);
      assert ComplaintIs(cvs, k, ExpectedRuns(b, k, events), blobs);
      assert FirstUnscored(b, events, blobs, k);
      assert RefusedFor(b, events, blobs, k, Problem(502, Complaint(cvs[k]).value));
    }
  }
}
