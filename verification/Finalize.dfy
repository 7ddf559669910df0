/** Grouping, ordering and aggregating a batch's results into the final document. */
module Finalize {
  import opened Options
  import opened Json
  import opened Text
  import opened Contracts
  import opened CvScoring

  /** A result with the application and index the orchestrator looked up for its run id. */
  datatype Tagged = Tagged(result: RunResult, applicationId: string, runIndex: nat)

  datatype RunPayload = RunPayload(
    runId: string,
    runIndex: nat,
    documentId: string,
    status: string,
    durationMs: int,
    tokensPrompt: int,
    tokensCompletion: int,
    correlationId: string,
    traceparent: Option<string>,
    artifacts: Option<seq<Artifact>>,
    errorMessage: Option<string>)

  datatype CvBlock = CvBlock(
    applicationId: string,
    documentId: string,
    runs: seq<RunPayload>,
    aggregated: Option<Aggregate>,
    error: Option<string>)

  datatype ResultDoc = ResultDoc(cvs: seq<CvBlock>)

  /** What downloading an artifact and decoding its first JSON value gives; an address that
      cannot be read or decoded is absent. */
  type Blobs = map<string, Value>

  // ---- one application's aggregate --------------------------------------------------------------

  predicate EndsWith(s: string, suffix: string) {
    |suffix| <= |s| && s[|s| - |suffix|..] == suffix
  }

  function FirstNamed(artifacts: seq<Artifact>): Option<Artifact> {
    if artifacts == [] then None
    else if artifacts[0].name == "output.json" && artifacts[0].blobUri != "" then Some(artifacts[0])
    else FirstNamed(artifacts[1..])
  }

  function FirstJson(artifacts: seq<Artifact>): Option<Artifact> {
    if artifacts == [] then None
    else if EndsWith(Lower(artifacts[0].name), ".json") && artifacts[0].blobUri != "" then Some(artifacts[0])
    else FirstJson(artifacts[1..])
  }

  /** The output document of a run: `output.json` if there is one, else the first JSON file. */
  function ReadOutputArtifact(artifacts: seq<Artifact>, blobs: Blobs): Option<seq<Field>> {
    var item := if FirstNamed(artifacts).Some? then FirstNamed(artifacts) else FirstJson(artifacts);
    if item.Some? && item.value.blobUri in blobs && blobs[item.value.blobUri].Obj? then
      Some(blobs[item.value.blobUri].fields)
    else None
  }

  function PayloadArtifacts(r: RunPayload): seq<Artifact> {
    if r.artifacts.Some? then r.artifacts.value else []
  }

  /** The comparison is exact, unlike the one the progress record makes. */
  predicate Succeeded(r: RunPayload) {
    r.status == "Succeeded"
  }

  /** The readable output of one run, if it succeeded. */
  function OutputOf(r: RunPayload, blobs: Blobs): seq<seq<Field>> {
    var out := ReadOutputArtifact(PayloadArtifacts(r), blobs);
    if Succeeded(r) && out.Some? then [out.value] else []
  }

  function OutputsOf(runs: seq<RunPayload>, blobs: Blobs): seq<seq<Field>> {
    if runs == [] then [] else OutputOf(runs[0], blobs) + OutputsOf(runs[1..], blobs)
  }

  function AsSource(a: Artifact): SourceArtifact {
    SourceArtifact(a.name, a.blobUri, a.sha256)
  }

  /** The artifacts of one run, if it succeeded. */
  function SourceOf(r: RunPayload): seq<SourceArtifact> {
    var artifacts := PayloadArtifacts(r);
    if Succeeded(r) then seq(|artifacts|, k requires 0 <= k < |artifacts| => AsSource(artifacts[k])) else []
  }

  function SourcesOf(runs: seq<RunPayload>): seq<SourceArtifact> {
    if runs == [] then [] else SourceOf(runs[0]) + SourcesOf(runs[1..])
  }

  function AggregateRuns(runs: seq<RunPayload>, blobs: Blobs, approveFirst: bool): Outcome<Option<Aggregate>> {
    CvAggregate(OutputsOf(runs, blobs), SourcesOf(runs), approveFirst)
  }

  lemma {:induction false} OutputsAppend(a: seq<RunPayload>, b: seq<RunPayload>, blobs: Blobs)
    ensures OutputsOf(a + b, blobs) == OutputsOf(a, blobs) + OutputsOf(b, blobs)
  {
    hide OutputOf;
    if a == [] {
      assert a + b == b;
    } else {
      assert (a + b)[0] == a[0] && (a + b)[1..] == a[1..] + b;
      OutputsAppend(a[1..], b, blobs);
    }
  }

  lemma {:induction false} SourcesAppend(a: seq<RunPayload>, b: seq<RunPayload>)
    ensures SourcesOf(a + b) == SourcesOf(a) + SourcesOf(b)
  {
    hide SourceOf;
    if a == [] {
      assert a + b == b;
    } else {
      assert (a + b)[0] == a[0] && (a + b)[1..] == a[1..] + b;
      SourcesAppend(a[1..], b);
    }
  }

  lemma OneRun(r: RunPayload, blobs: Blobs)
    ensures OutputsOf([r], blobs) == OutputOf(r, blobs) && SourcesOf([r]) == SourceOf(r)
  {
    hide OutputOf, SourceOf;
    assert [r][1..] == [];
  }

  lemma {:induction false} NoneSucceeded(runs: seq<RunPayload>, blobs: Blobs)
    requires forall k :: 0 <= k < |runs| ==> !Succeeded(runs[k])
    ensures OutputsOf(runs, blobs) == []
  {
    if runs != [] {
      NoneSucceeded(runs[1..], blobs);
    }
  }

  method Aggregated(runs: seq<RunPayload>, blobs: Blobs, approveFirst: bool) returns (r: Outcome<Option<Aggregate>>)
    ensures r == AggregateRuns(runs, blobs, approveFirst)
  {
    hide ReadOutputArtifact, CvAggregate, ParseAll, Summary;
    if runs == [] || forall k :: 0 <= k < |runs| ==> !Succeeded(runs[k]) {
      NoneSucceeded(runs, blobs);
      NothingToAggregate(SourcesOf(runs), approveFirst);
      return Done(None);
    }
    var outputs, sources := [], [];
    for n := 0 to |runs|
      invariant outputs == OutputsOf(runs[..n], blobs)
      invariant sources == SourcesOf(runs[..n])
    {
      assert runs[..n + 1] == runs[..n] + [runs[n]];
      OutputsAppend(runs[..n], [runs[n]], blobs);
      SourcesAppend(runs[..n], [runs[n]]);
      OneRun(runs[n], blobs);
      assert outputs + [] == outputs && sources + [] == sources;
      if Succeeded(runs[n]) {
        var artifacts := PayloadArtifacts(runs[n]);
        var out := ReadOutputArtifact(artifacts, blobs);
        if out.Some? {
          outputs := outputs + [out.value];
        }
        sources := sources + seq(|artifacts|, k requires 0 <= k < |artifacts| => AsSource(artifacts[k]));
      }
    }
    assert runs[..|runs|] == runs;
    r := AggregateCvScoring(outputs, sources, approveFirst);
  }

  lemma NothingToAggregate(sources: seq<SourceArtifact>, approveFirst: bool)
    ensures CvAggregate([], sources, approveFirst) == Done(None)
  {
  }

  // ---- ordering ------------------------------------------------------------------------------------

  function InsertByIndex(x: Tagged, s: seq<Tagged>): (r: seq<Tagged>)
    ensures forall e :: e in r <==> e == x || e in s
  {
    if s == [] then [x] else if x.runIndex <= s[0].runIndex then [x] + s else [s[0]] + InsertByIndex(x, s[1..])
  }

  /** Python's stable `sorted(..., key=_run_index)`. */
  function SortByIndex(s: seq<Tagged>): (r: seq<Tagged>)
    ensures forall e :: e in r <==> e in s
  {
    if s == [] then [] else InsertByIndex(s[0], SortByIndex(s[1..]))
  }

  ghost predicate DistinctIndexes(s: seq<Tagged>) {
    forall k, l :: 0 <= k < l < |s| ==> s[k].runIndex != s[l].runIndex
  }

  ghost predicate StrictlyAscending(s: seq<Tagged>) {
    forall k, l :: 0 <= k < l < |s| ==> s[k].runIndex < s[l].runIndex
  }

  lemma {:induction false} InsertStrict(x: Tagged, s: seq<Tagged>)
    requires StrictlyAscending(s) && forall e :: e in s ==> e.runIndex != x.runIndex
    ensures StrictlyAscending(InsertByIndex(x, s))
  {
    if s != [] && s[0].runIndex < x.runIndex {
      InsertStrict(x, s[1..]);
      var rest := InsertByIndex(x, s[1..]);
      assert forall k :: 0 <= k < |rest| ==> rest[k] in rest;
      assert forall k :: 0 < k < |s| ==> s[k] in s[1..];
      assert forall e :: e in s[1..] ==> s[0].runIndex < e.runIndex;
    }
  }

  lemma {:induction false} SortStrict(s: seq<Tagged>)
    requires DistinctIndexes(s)
    ensures StrictlyAscending(SortByIndex(s))
  {
    if s != [] {
      SortStrict(s[1..]);
      InsertStrict(s[0], SortByIndex(s[1..]));
    }
  }

  ghost predicate HasIndex(s: seq<Tagged>, j: nat) {
    exists e :: e in s && e.runIndex == j
  }

  /** A strictly ascending list that has every index from lo to n has them in place. */
  lemma {:induction false} IndexesInPlace(s: seq<Tagged>, lo: nat, n: nat)
    requires lo <= n && StrictlyAscending(s)
    requires forall e :: e in s ==> lo <= e.runIndex < n
    requires forall j :: lo <= j < n ==> HasIndex(s, j)
    ensures |s| == n - lo && forall k :: 0 <= k < |s| ==> s[k].runIndex == lo + k
    decreases n - lo
  {
    if lo == n {
      assert forall k :: 0 <= k < |s| ==> s[k] in s;
    } else {
      assert HasIndex(s, lo);
      assert s[0] in s && s[0].runIndex == lo;
      var rest := s[1..];
      forall j | lo + 1 <= j < n ensures HasIndex(rest, j) {
        assert HasIndex(s, j);
        var f :| f in s && f.runIndex == j;
        assert f in rest;
      }
      IndexesInPlace(rest, lo + 1, n);
    }
  }

  // ---- the document -------------------------------------------------------------------------------

  function ForApplication(results: seq<Tagged>, applicationId: string): seq<Tagged> {
    if results == [] then [] else OneFor(results[0], applicationId) + ForApplication(results[1..], applicationId)
  }

  function OneFor(t: Tagged, applicationId: string): seq<Tagged> {
    if t.applicationId == applicationId then [t] else []
  }

  function PayloadOf(r: RunResult, runIndex: nat, documentId: string): RunPayload {
    RunPayload(r.runId, runIndex, documentId, r.status, r.durationMs, r.tokensPrompt, r.tokensCompletion,
               r.correlationId, r.traceparent, r.artifacts, r.errorMessage)
  }

  function Payloads(runs: seq<Tagged>, documentId: string): seq<RunPayload> {
    seq(|runs|, k requires 0 <= k < |runs| => PayloadOf(runs[k].result, runs[k].runIndex, documentId))
  }

  predicate HasError(r: RunPayload) {
    !Succeeded(r) && r.errorMessage.Some? && r.errorMessage.value != ""
  }

  ghost predicate IsFirstError(runs: seq<RunPayload>, k: nat) {
    k < |runs| && HasError(runs[k]) && forall l :: 0 <= l < k ==> !HasError(runs[l])
  }

  /** The message of the first run that did not succeed and has one. */
  function FirstError(runs: seq<RunPayload>): (e: Option<string>)
    ensures e.None? <==> forall k :: 0 <= k < |runs| ==> !HasError(runs[k])
    ensures e.Some? ==> exists k: nat :: IsFirstError(runs, k) && runs[k].errorMessage == e
  {
    if runs == [] then None
    else if HasError(runs[0]) then
      assert IsFirstError(runs, 0);
      runs[0].errorMessage
    else
      var rest := runs[1..];
      var e := FirstError(rest);
      assert forall k :: 0 < k < |runs| ==> runs[k] == rest[k - 1];
      assert forall k: nat :: IsFirstError(rest, k) ==> IsFirstError(runs, k + 1) && runs[k + 1] == rest[k];
      e
  }

  function BlockFor(cv: Cv, runs: seq<RunPayload>, blobs: Blobs, approveFirst: bool): Outcome<CvBlock> {
    match AggregateRuns(runs, blobs, approveFirst)
    case Raised(e) => Raised(e)
    case Done(agg) => Done(CvBlock(cv.applicationId, cv.documentId, runs, agg, FirstError(runs)))
  }

  /** The runs listed for a CV: its own results by index. */
  function RunsListed(cv: Cv, results: seq<Tagged>): seq<RunPayload> {
    Payloads(SortByIndex(ForApplication(results, cv.applicationId)), cv.documentId)
  }

  function AllRunsListed(cvs: seq<Cv>, results: seq<Tagged>): (lists: seq<seq<RunPayload>>)
    ensures |lists| == |cvs|
  {
    seq(|cvs|, i requires 0 <= i < |cvs| => RunsListed(cvs[i], results))
  }

  /** The blocks of the first n CVs, or the first failure. Which decision wins a tie may
      differ from block to block. */
  function Blocks(cvs: seq<Cv>, lists: seq<seq<RunPayload>>, n: nat, blobs: Blobs,
                  ties: nat -> bool): Outcome<seq<CvBlock>>
    requires n <= |cvs| == |lists|
  {
    if n == 0 then Done([])
    else match Blocks(cvs, lists, n - 1, blobs, ties)
      case Raised(e) => Raised(e)
      case Done(front) =>
        match BlockFor(cvs[n - 1], lists[n - 1], blobs, ties(n - 1))
        case Raised(e) => Raised(e)
        case Done(block) => Done(front + [block])
  }

  /** Done exactly when every block is, and then block for block. */
  lemma {:induction false} BlockByBlock(cvs: seq<Cv>, lists: seq<seq<RunPayload>>, n: nat, blobs: Blobs,
                                        ties: nat -> bool)
    requires n <= |cvs| == |lists|
    ensures Blocks(cvs, lists, n, blobs, ties).Done? <==>
      forall i :: 0 <= i < n ==> BlockFor(cvs[i], lists[i], blobs, ties(i)).Done?
    ensures Blocks(cvs, lists, n, blobs, ties).Done? ==>
      && |Blocks(cvs, lists, n, blobs, ties).value| == n
      && forall i :: 0 <= i < n ==>
           BlockFor(cvs[i], lists[i], blobs, ties(i)) == Done(Blocks(cvs, lists, n, blobs, ties).value[i])
  {
    hide BlockFor;
    if n > 0 {
      BlockByBlock(cvs, lists, n - 1, blobs, ties);
    }
  }

  lemma {:induction false} BlocksFailEarly(cvs: seq<Cv>, lists: seq<seq<RunPayload>>, m: nat, n: nat, blobs: Blobs,
                                           ties: nat -> bool)
    requires m <= n <= |cvs| == |lists| && Blocks(cvs, lists, m, blobs, ties).Raised?
    ensures Blocks(cvs, lists, n, blobs, ties) == Blocks(cvs, lists, m, blobs, ties)
  {
    hide BlockFor;
    if m < n {
      BlocksFailEarly(cvs, lists, m, n - 1, blobs, ties);
    }
  }

  function DocumentOf(cvs: seq<Cv>, lists: seq<seq<RunPayload>>, blobs: Blobs, ties: nat -> bool): Outcome<ResultDoc>
    requires |cvs| == |lists|
  {
    match Blocks(cvs, lists, |cvs|, blobs, ties)
    case Raised(e) => Raised(e)
    case Done(blocks) => Done(ResultDoc(blocks))
  }

  /** The container the final documents are stored in, by batch id. */
  class ResultContainer {
    var documents: map<string, ResultDoc>

    constructor ()
      ensures documents == map[]
    {
      documents := map[];
    }

    method Upload(batchId: string, doc: ResultDoc)
      modifies this
      ensures documents == old(documents)[batchId := doc]
    {
      documents := documents[batchId := doc];
    }
  }

  lemma {:induction false} ForApplicationAppend(a: seq<Tagged>, b: seq<Tagged>, id: string)
    ensures ForApplication(a + b, id) == ForApplication(a, id) + ForApplication(b, id)
  {
    hide OneFor;
    if a == [] {
      assert a + b == b;
    } else {
      assert (a + b)[0] == a[0] && (a + b)[1..] == a[1..] + b;
      ForApplicationAppend(a[1..], b, id);
    }
  }

  /** Grouping the results by application, in arrival order. */
  method GroupByApplication(results: seq<Tagged>) returns (byApp: map<string, seq<Tagged>>)
    ensures forall id :: ForApplication(results, id) == if id in byApp then byApp[id] else []
  {
    byApp := map[];
    for k := 0 to |results|
      invariant forall id :: ForApplication(results[..k], id) == if id in byApp then byApp[id] else []
    {
      var r := results[k];
      assert results[..k + 1] == results[..k] + [r] && [r][1..] == [];
      forall id ensures ForApplication(results[..k + 1], id) ==
        ForApplication(results[..k], id) + if id == r.applicationId then [r] else []
      {
        ForApplicationAppend(results[..k], [r], id);
      }
      byApp := byApp[r.applicationId := (if r.applicationId in byApp then byApp[r.applicationId] else []) + [r]];
    }
    assert results[..|results|] == results;
  }

  /** Stores the document it returns; stores nothing when an output cannot be aggregated. */
  method FinalizeBatch(store: ResultContainer, batchId: string, cvs: seq<Cv>, results: seq<Tagged>, blobs: Blobs,
                       ties: nat -> bool)
    returns (r: Outcome<ResultDoc>)
    modifies store
    ensures r == DocumentOf(cvs, AllRunsListed(cvs, results), blobs, ties)
    ensures store.documents == if r.Done? then old(store.documents)[batchId := r.value] else old(store.documents)
  {
    hide AggregateRuns, SortByIndex, ForApplication, FirstError, Payloads;
    var byApp := GroupByApplication(results);
    ghost var lists := AllRunsListed(cvs, results);
    var blocks: seq<CvBlock> := [];
    for i := 0 to |cvs|
      invariant Blocks(cvs, lists, i, blobs, ties) == Done(blocks)
      invariant store.documents == old(store.documents)
    {
      var cv := cvs[i];
      var mine := if cv.applicationId in byApp then byApp[cv.applicationId] else [];
      var runs := Payloads(SortByIndex(mine), cv.documentId);
      var agg := Aggregated(runs, blobs, ties(i));
      if agg.Raised? {
        BlocksFailEarly(cvs, lists, i + 1, |cvs|, blobs, ties);
        return Raised(agg.error);
      }
      blocks := blocks + [CvBlock(cv.applicationId, cv.documentId, runs, agg.value, FirstError(runs))];
    }
    var doc := ResultDoc(blocks);
    store.Upload(batchId, doc);
    r := Done(doc);
  }

  // ---- where every result ends up --------------------------------------------------------------------

  ghost predicate TagAt(b: Batch, t: Tagged, i: nat, j: nat) {
    IsRunOf(b, t.result.runId, i, j) && t.applicationId == b.cvs[i].applicationId && t.runIndex == j
  }

  /** The result carries the application and index its run id was minted for. */
  ghost predicate TagFits(b: Batch, t: Tagged) {
    exists i: nat, j: nat :: TagAt(b, t, i, j)
  }

  /** A result for every run of the batch, under its own run id. */
  ghost predicate HasEvents(b: Batch, events: map<string, RunResult>) {
    forall i, j :: 0 <= i < |b.cvs| && 0 <= j < b.runCount ==>
        RunIdOf(b, i, j) in events && events[RunIdOf(b, i, j)].runId == RunIdOf(b, i, j)
  }

  /** One result for every run of the batch, in some order, tagged with its own place. */
  ghost predicate CompleteResults(b: Batch, results: seq<Tagged>, events: map<string, RunResult>) {
    && (forall k :: 0 <= k < |results| ==> TagFits(b, results[k]))
    && (forall k :: 0 <= k < |results| ==>
         results[k].result.runId in events && events[results[k].result.runId] == results[k].result)
    && (forall k, l :: 0 <= k < l < |results| ==> results[k].result.runId != results[l].result.runId)
    && (forall id :: id in RunIds(b) ==> exists k :: 0 <= k < |results| && results[k].result.runId == id)
  }

  function ExpectedRuns(b: Batch, i: nat, events: map<string, RunResult>): seq<RunPayload>
    requires i < |b.cvs| && HasEvents(b, events)
  {
    seq(b.runCount, j requires 0 <= j < b.runCount => PayloadOf(events[RunIdOf(b, i, j)], j, b.cvs[i].documentId))
  }

  function AllExpectedRuns(b: Batch, events: map<string, RunResult>): (lists: seq<seq<RunPayload>>)
    requires HasEvents(b, events)
    ensures |lists| == |b.cvs|
  {
    seq(|b.cvs|, i requires 0 <= i < |b.cvs| => ExpectedRuns(b, i, events))
  }

  lemma {:induction false} ForApplicationMembers(results: seq<Tagged>, id: string)
    ensures forall e :: e in ForApplication(results, id) <==> e in results && e.applicationId == id
  {
    if results != [] {
      ForApplicationMembers(results[1..], id);
    }
  }

  lemma {:induction false} ForApplicationDistinct(results: seq<Tagged>, id: string)
    requires forall k, l :: 0 <= k < l < |results| && results[k].applicationId == id == results[l].applicationId ==>
      results[k].runIndex != results[l].runIndex
    ensures DistinctIndexes(ForApplication(results, id))
  {
    if results != [] {
      ForApplicationDistinct(results[1..], id);
      ForApplicationMembers(results[1..], id);
      var rest := ForApplication(results[1..], id);
      forall k | 0 <= k < |rest| && results[0].applicationId == id ensures rest[k].runIndex != results[0].runIndex {
        assert rest[k] in rest;
        var l :| 0 <= l < |results[1..]| && results[1..][l] == rest[k];
        assert results[l + 1] == rest[k];
      }
    }
  }

  ghost predicate ListedFrom(run: RunPayload, cv: Cv, t: Tagged) {
    && t.applicationId == cv.applicationId && run.runId == t.result.runId && run.runIndex == t.runIndex
    && run.documentId == cv.documentId
  }

  /** Whatever results there are, complete or not: a CV lists its own only, each at the index
      it came with. */
  lemma ListsOwnResults(cv: Cv, results: seq<Tagged>, k: nat)
    requires k < |RunsListed(cv, results)|
    ensures exists t :: t in results && ListedFrom(RunsListed(cv, results)[k], cv, t)
  {
    ForApplicationMembers(results, cv.applicationId);
    var sorted := SortByIndex(ForApplication(results, cv.applicationId));
    hide SortByIndex, ForApplication;
    assert sorted[k] in sorted && ListedFrom(RunsListed(cv, results)[k], cv, sorted[k]);
  }

  /** A fitting tag of this application names this application's own run id. */
  lemma TagHere(b: Batch, t: Tagged, i: nat)
    requires DistinctApplications(b) && i < |b.cvs| && TagFits(b, t) && t.applicationId == b.cvs[i].applicationId
    ensures t.runIndex < b.runCount && t.result.runId == RunIdOf(b, i, t.runIndex)
  {
  }

  /** The results of one application have distinct indexes and lack none. */
  lemma MineComplete(b: Batch, results: seq<Tagged>, events: map<string, RunResult>, i: nat)
    requires DistinctApplications(b) && CompleteResults(b, results, events) && i < |b.cvs|
    ensures var mine := ForApplication(results, b.cvs[i].applicationId);
      DistinctIndexes(mine) && forall j :: 0 <= j < b.runCount ==> HasIndex(mine, j)
  {
    var id := b.cvs[i].applicationId;
    var mine := ForApplication(results, id);
    ForApplicationMembers(results, id);
    forall k, l | 0 <= k < l < |results| && results[k].applicationId == id == results[l].applicationId
      ensures results[k].runIndex != results[l].runIndex
    {
      TagHere(b, results[k], i);
      TagHere(b, results[l], i);
    }
    ForApplicationDistinct(results, id);
    RunIdsExactly(b);
    hide RunIdsFrom, ForApplication, RunIdOf;
    forall j: nat | j < b.runCount ensures HasIndex(mine, j) {
      assert IsRunOf(b, RunIdOf(b, i, j), i, j);
      assert RunIdOf(b, i, j) in RunIds(b);
      var k :| 0 <= k < |results| && results[k].result.runId == RunIdOf(b, i, j);
      var n: nat, m: nat :| TagAt(b, results[k], n, m);
      RunPlaceUnique(b, RunIdOf(b, i, j), i, j, n, m);
      assert results[k] in mine;
    }
  }

  lemma ListedByIndex(b: Batch, results: seq<Tagged>, events: map<string, RunResult>, i: nat)
    requires DistinctApplications(b) && CompleteResults(b, results, events) && i < |b.cvs| && HasEvents(b, events)
    ensures RunsListed(b.cvs[i], results) == ExpectedRuns(b, i, events)
  {
    var id := b.cvs[i].applicationId;
    var mine := ForApplication(results, id);
    var sorted := SortByIndex(mine);
    ForApplicationMembers(results, id);
    MineComplete(b, results, events, i);
    SortStrict(mine);
    hide ForApplication, SortByIndex, RunIdsFrom;
    forall e | e in sorted
      ensures e.runIndex < b.runCount && e.result.runId == RunIdOf(b, i, e.runIndex)
          && events[e.result.runId] == e.result
    {
      TagHere(b, e, i);
    }
    forall j | 0 <= j < b.runCount ensures HasIndex(sorted, j) {
      assert HasIndex(mine, j);
      var e :| e in mine && e.runIndex == j;
      assert e in sorted;
    }
    IndexesInPlace(sorted, 0, b.runCount);
    assert forall k :: 0 <= k < |sorted| ==> sorted[k] in sorted;
  }

  /** The final document as a function of the batch and its results alone. */
  function BuildDocument(b: Batch, events: map<string, RunResult>, blobs: Blobs, ties: nat -> bool): Outcome<ResultDoc>
    requires HasEvents(b, events)
  {
    DocumentOf(b.cvs, AllExpectedRuns(b, events), blobs, ties)
  }

  /** Finalisation partitions the results: whatever order they came in, each CV's block
      lists its own runs at indexes 0 to runCount - 1, each with the run id minted for that
      place and the result received for it. */
  lemma FinalisationPartitions(b: Batch, results: seq<Tagged>, events: map<string, RunResult>, blobs: Blobs,
                               ties: nat -> bool)
    requires DistinctApplications(b) && CompleteResults(b, results, events) && HasEvents(b, events)
    ensures DocumentOf(b.cvs, AllRunsListed(b.cvs, results), blobs, ties) == BuildDocument(b, events, blobs, ties)
  {
    forall i | 0 <= i < |b.cvs| ensures RunsListed(b.cvs[i], results) == ExpectedRuns(b, i, events) {
      ListedByIndex(b, results, events, i);
    }
    assert AllRunsListed(b.cvs, results) == AllExpectedRuns(b, events);
  }

  ghost predicate Lists(cvs: seq<CvBlock>, i: nat, j: nat, id: string) {
    i < |cvs| && j < |cvs[i].runs| && cvs[i].runs[j].runId == id
  }

  /** What one block of the final document says. */
  lemma BlockContents(b: Batch, events: map<string, RunResult>, blobs: Blobs, ties: nat -> bool, i: nat)
    requires HasEvents(b, events) && BuildDocument(b, events, blobs, ties).Done? && i < |b.cvs|
    ensures var cvs := BuildDocument(b, events, blobs, ties).value.cvs;
      && |cvs| == |b.cvs|
      && cvs[i].applicationId == b.cvs[i].applicationId && cvs[i].documentId == b.cvs[i].documentId
      && cvs[i].runs == ExpectedRuns(b, i, events)
      && Done(cvs[i].aggregated) == AggregateRuns(cvs[i].runs, blobs, ties(i))
      && cvs[i].error == FirstError(cvs[i].runs)
  {
    hide AggregateRuns, FirstError, Blocks;
    BlockByBlock(b.cvs, AllExpectedRuns(b, events), |b.cvs|, blobs, ties);
  }

  /** Each result is listed once and only once in the whole document, in its own CV's block
      and at its own index. */
  lemma EveryResultOnce(b: Batch, events: map<string, RunResult>, blobs: Blobs, ties: nat -> bool, i: nat, j: nat)
    requires DistinctApplications(b) && HasEvents(b, events) && i < |b.cvs| && j < b.runCount
    requires BuildDocument(b, events, blobs, ties).Done?
    ensures var cvs := BuildDocument(b, events, blobs, ties).value.cvs;
      forall k: nat, l: nat :: Lists(cvs, k, l, RunIdOf(b, i, j)) <==> k == i && l == j
  {
    var cvs := BuildDocument(b, events, blobs, ties).value.cvs;
    BlockContents(b, events, blobs, ties, i);
    hide BuildDocument;
    forall k: nat, l: nat | Lists(cvs, k, l, RunIdOf(b, i, j)) ensures k == i && l == j {
      BlockContents(b, events, blobs, ties, k);
      RunPlaceUnique(b, RunIdOf(b, i, j), i, j, k, l);
    }
  }

  /** Two documents for the same results differ at most in how tied votes were decided. */
  lemma OnlyTiesDiffer(b: Batch, events: map<string, RunResult>, blobs: Blobs, x: nat -> bool, y: nat -> bool)
    requires HasEvents(b, events)
    ensures BuildDocument(b, events, blobs, x).Done? <==> BuildDocument(b, events, blobs, y).Done?
    ensures BuildDocument(b, events, blobs, x).Done? ==>
      forall i :: 0 <= i < |b.cvs| ==>
        SameUpToTie(BuildDocument(b, events, blobs, x).value, BuildDocument(b, events, blobs, y).value, i,
                    ParseAll(OutputsOf(ExpectedRuns(b, i, events), blobs)))
  {
    hide OutputsOf, SourcesOf, FirstError, ParseAll, Blocks, ExpectedRuns, HasEvents, Votes, Scores;
    var lists := AllExpectedRuns(b, events);
    BlockByBlock(b.cvs, lists, |b.cvs|, blobs, x);
    BlockByBlock(b.cvs, lists, |b.cvs|, blobs, y);
    forall i | 0 <= i < |b.cvs|
      ensures BlockFor(b.cvs[i], lists[i], blobs, x(i)).Done? <==> BlockFor(b.cvs[i], lists[i], blobs, y(i)).Done?
    {
    }
    if BuildDocument(b, events, blobs, x).Done? {
      forall i | 0 <= i < |b.cvs|
        ensures SameUpToTie(BuildDocument(b, events, blobs, x).value, BuildDocument(b, events, blobs, y).value, i,
                            ParseAll(OutputsOf(ExpectedRuns(b, i, events), blobs)))
      {
        BlockContents(b, events, blobs, x, i);
        BlockContents(b, events, blobs, y, i);
      }
    }
  }

  ghost predicate SameUpToTie(x: ResultDoc, y: ResultDoc, i: nat, parsed: Outcome<seq<Signal>>) {
    && i < |x.cvs| && i < |y.cvs| && parsed.Done?
    && match (x.cvs[i].aggregated, y.cvs[i].aggregated) {
      case (None, None) => x.cvs[i] == y.cvs[i]
      case (Some(a), Some(c)) =>
        && y.cvs[i] == x.cvs[i].(aggregated := Some(a.(finalDecision := c.finalDecision)))
        && (Votes(parsed.value, Approve) != Votes(parsed.value, Reject) ==> a.finalDecision == c.finalDecision)
      case _ => false
    }
  }

  /** Confluence of the outcome: whatever the order in which the same results came in, and
      however ties fall, finalisation fails in both cases or gives the same document but
      for tied decisions. */
  lemma DocumentConfluence(b: Batch, events: map<string, RunResult>, x: seq<Tagged>, y: seq<Tagged>, blobs: Blobs,
                           p: nat -> bool, q: nat -> bool)
    requires DistinctApplications(b) && HasEvents(b, events)
    requires CompleteResults(b, x, events) && CompleteResults(b, y, events)
    ensures var dx, dy := DocumentOf(b.cvs, AllRunsListed(b.cvs, x), blobs, p),
        DocumentOf(b.cvs, AllRunsListed(b.cvs, y), blobs, q);
      && (dx.Done? <==> dy.Done?)
      && (dx.Done? ==> |dx.value.cvs| == |dy.value.cvs| == |b.cvs|)
      && (dx.Done? ==> forall i :: 0 <= i < |b.cvs| ==>
           SameUpToTie(dx.value, dy.value, i, ParseAll(OutputsOf(ExpectedRuns(b, i, events), blobs))))
  {
    hide DocumentOf, AllRunsListed, BuildDocument, HasEvents, CompleteResults, SameUpToTie, ParseAll, OutputsOf;
    hide ExpectedRuns;
    FinalisationPartitions(b, x, events, blobs, p);
    FinalisationPartitions(b, y, events, blobs, q);
    OnlyTiesDiffer(b, events, blobs, p, q);
    if BuildDocument(b, events, blobs, p).Done? {
      BlockCount(b, events, blobs, p);
      BlockCount(b, events, blobs, q);
    }
  }

  lemma BlockCount(b: Batch, events: map<string, RunResult>, blobs: Blobs, ties: nat -> bool)
    requires HasEvents(b, events) && BuildDocument(b, events, blobs, ties).Done?
    ensures |BuildDocument(b, events, blobs, ties).value.cvs| == |b.cvs|
  {
    hide BlockFor, Blocks;
    BlockByBlock(b.cvs, AllExpectedRuns(b, events), |b.cvs|, blobs, ties);
  }

  // ---- when finalisation succeeds ------------------------------------------------------------------

  /** If the run succeeded and its output can be read, the output's must-haves can be evaluated. */
  ghost predicate RunReadable(r: RunPayload, blobs: Blobs) {
    var out := ReadOutputArtifact(PayloadArtifacts(r), blobs);
    Succeeded(r) && out.Some? ==> MustHavesReadable(out.value)
  }

  ghost predicate AllReadable(runs: seq<RunPayload>, blobs: Blobs) {
    forall j :: 0 <= j < |runs| ==> RunReadable(runs[j], blobs)
  }

  lemma OneReadable(r: RunPayload, blobs: Blobs)
    ensures RunReadable(r, blobs) <==> EachReadable(OutputOf(r, blobs))
  {
    hide ReadOutputArtifact, MustHavesReadable;
    var out := ReadOutputArtifact(PayloadArtifacts(r), blobs);
    if Succeeded(r) && out.Some? {
      assert OutputOf(r, blobs)[0] == out.value;
    }
  }

  lemma EachReadableAppend(a: seq<seq<Field>>, c: seq<seq<Field>>)
    ensures EachReadable(a + c) <==> EachReadable(a) && EachReadable(c)
  {
    hide MustHavesReadable;
    assert forall k :: 0 <= k < |a| ==> (a + c)[k] == a[k];
    assert forall k :: 0 <= k < |c| ==> (a + c)[|a| + k] == c[k];
  }

  lemma {:induction false} OutputsReadable(runs: seq<RunPayload>, blobs: Blobs)
    ensures AllReadable(runs, blobs) <==> EachReadable(OutputsOf(runs, blobs))
  {
    hide OutputOf, RunReadable, MustHavesReadable;
    if runs != [] {
      OneReadable(runs[0], blobs);
      OutputsReadable(runs[1..], blobs);
      EachReadableAppend(OutputOf(runs[0], blobs), OutputsOf(runs[1..], blobs));
      hide EachReadable;
      assert forall j :: 0 < j < |runs| ==> runs[j] == runs[1..][j - 1];
      assert forall j :: 0 <= j < |runs| - 1 ==> runs[1..][j] == runs[j + 1];
    }
  }

  lemma AggregationSucceeds(runs: seq<RunPayload>, blobs: Blobs, approveFirst: bool)
    ensures AggregateRuns(runs, blobs, approveFirst).Done? <==> AllReadable(runs, blobs)
  {
    hide OutputsOf, SourcesOf, ParseAll, Summary, AllReadable, EachReadable;
    OutputsReadable(runs, blobs);
    ParsingSucceeds(OutputsOf(runs, blobs));
  }

  ghost predicate Finalisable(b: Batch, events: map<string, RunResult>, blobs: Blobs)
    requires HasEvents(b, events)
  {
    forall i :: 0 <= i < |b.cvs| ==> AllReadable(ExpectedRuns(b, i, events), blobs)
  }

  /** Finalisation succeeds exactly when no succeeded run has a readable output whose
      must-haves cannot be evaluated. One such run fails the whole batch. */
  lemma FinalisationSucceeds(b: Batch, events: map<string, RunResult>, blobs: Blobs, ties: nat -> bool)
    requires HasEvents(b, events)
    ensures BuildDocument(b, events, blobs, ties).Done? <==> Finalisable(b, events, blobs)
  {
    hide AggregateRuns, FirstError, AllReadable, Blocks, HasEvents, ExpectedRuns;
    var lists := AllExpectedRuns(b, events);
    BlockByBlock(b.cvs, lists, |b.cvs|, blobs, ties);
    forall i | 0 <= i < |b.cvs|
      ensures BlockFor(b.cvs[i], lists[i], blobs, ties(i)).Done? <==> AllReadable(ExpectedRuns(b, i, events), blobs)
    {
      AggregationSucceeds(lists[i], blobs, ties(i));
    }
  }

  /** A run that is scored and fails its batch. */
  lemma OneOutputFailsTheBatch(b: Batch, events: map<string, RunResult>, blobs: Blobs, ties: nat -> bool, i: nat,
                               j: nat)
    requires HasEvents(b, events) && i < |b.cvs| && j < b.runCount
    requires var r := ExpectedRuns(b, i, events)[j];
      Succeeded(r) && ReadOutputArtifact(PayloadArtifacts(r), blobs) == Some(LISTED_SKILL)
    ensures BuildDocument(b, events, blobs, ties).Raised?
  {
    hide HasEvents, MustHavesReadable, ReadOutputArtifact, BuildDocument;
    ScoredYetRaises();
    FinalisationSucceeds(b, events, blobs, ties);
    assert !RunReadable(ExpectedRuns(b, i, events)[j], blobs);
  }
}
