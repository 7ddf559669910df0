/** What the progress record tells of a batch, in terms of the results that arrived alone. */
module Reported {
  import opened Options
  import opened Text
  import opened Sums
  import opened Contracts
  import opened Progress
  import opened Reachability
  import opened ProgressTheorems

  // ---- what was reported ---------------------------------------------------------------------------

  ghost predicate Heard(arrivals: seq<Arrival>, id: string) {
    exists k :: 0 <= k < |arrivals| && arrivals[k].result.runId == id
  }

  /** A result arrived for the run, with one of these words as its status, in any case. */
  ghost predicate ReportedAs(arrivals: seq<Arrival>, id: string, words: set<string>) {
    exists k :: 0 <= k < |arrivals| && arrivals[k].result.runId == id && StatusKey(arrivals[k].result.status) in words
  }

  ghost predicate AllReported(b: Batch, i: nat, arrivals: seq<Arrival>, words: set<string>)
    requires i < |b.cvs|
  {
    forall j :: 0 <= j < b.runCount ==> ReportedAs(arrivals, RunIdOf(b, i, j), words)
  }

  /** No run of the application is still under way. */
  ghost predicate NoneInFlight(b: Batch, i: nat, arrivals: seq<Arrival>)
    requires i < |b.cvs|
  {
    forall j :: 0 <= j < b.runCount ==>
      Heard(arrivals, RunIdOf(b, i, j))
      && !ReportedAs(arrivals, RunIdOf(b, i, j), {"queued", "dispatched", "running", ""})
  }

  /** The cached status of an application, from the words its runs reported. */
  ghost predicate StatusTells(status: string, b: Batch, i: nat, arrivals: seq<Arrival>)
    requires i < |b.cvs|
  {
    var succeeded, failed, cancelled :=
      AllReported(b, i, arrivals, {"succeeded", "completed"}),
      AllReported(b, i, arrivals, {"failed"}),
      AllReported(b, i, arrivals, {"cancelled", "canceled"});
    && (status == "completed" <==> succeeded)
    && (status == "failed" <==> failed)
    && (status == "cancelled" <==> cancelled)
    && (status == "partial" <==> NoneInFlight(b, i, arrivals) && !succeeded && !failed && !cancelled)
    && (status == "queued" <==> AllReported(b, i, arrivals, {"queued"}))
    && status in {"completed", "failed", "cancelled", "partial", "queued", "running"}
  }

  /** The key the record has for a run. */
  ghost predicate KeyTells(key: string, arrivals: seq<Arrival>, id: string) {
    && (!Heard(arrivals, id) ==> key == "dispatched")
    && (forall words :: ReportedAs(arrivals, id, words) <==> Heard(arrivals, id) && key in words)
  }

  lemma {:induction false} RunKeyTells(b: Batch, arrivals: seq<Arrival>, run: Run, id: string, j: nat)
    requires ValidArrivals(b, arrivals) && id in RunIds(b)
    requires RunMatches(run, id, j, IdSet(RunIds(b)), ResultsOf(arrivals))
    ensures KeyTells(StatusKey(run.status), arrivals, id)
  {
    hide RunIds, StatusKey, ResultsOf;
    ResultsOfMembers(arrivals);
    StatusesOf(run, id, j, IdSet(RunIds(b)), ResultsOf(arrivals));
    DispatchedKey();
    if Heard(arrivals, id) {
      var k :| 0 <= k < |arrivals| && arrivals[k].result.runId == id;
      var l :| 0 <= l < |arrivals| && arrivals[l].result == ResultsOf(arrivals)[id] && arrivals[l].result.runId == id;
      assert k == l;
    }
  }

  lemma DispatchedKey()
    ensures StatusKey("dispatched") == "dispatched"
  {
    KnownKeys();
  }

  /** The summary of keys that tell what was reported tells it too. */
  lemma SummaryTells(keys: seq<string>, b: Batch, i: nat, arrivals: seq<Arrival>)
    requires i < |b.cvs| && |keys| == b.runCount >= 1
    requires forall j :: 0 <= j < b.runCount ==> KeyTells(keys[j], arrivals, RunIdOf(b, i, j))
    ensures StatusTells(SummarizeKeys(keys), b, i, arrivals)
  {
    hide RunIdOf, AllReported, NoneInFlight, KeyTells, SummarizeKeys, InFlightKey;
    AllIn(keys, b, i, arrivals, {"succeeded", "completed"});
    AllIn(keys, b, i, arrivals, {"failed"});
    AllIn(keys, b, i, arrivals, {"cancelled", "canceled"});
    AllIn(keys, b, i, arrivals, {"queued"});
    NoneIn(keys, b, i, arrivals);
    SummaryCases(keys);
  }

  /** The summary takes exactly one of six values, told apart by which words occur. */
  lemma SummaryCases(keys: seq<string>)
    requires keys != []
    ensures var s := SummarizeKeys(keys);
      && (s == "completed" <==> forall j :: 0 <= j < |keys| ==> keys[j] in {"succeeded", "completed"})
      && (s == "failed" <==> forall j :: 0 <= j < |keys| ==> keys[j] in {"failed"})
      && (s == "cancelled" <==> forall j :: 0 <= j < |keys| ==> keys[j] in {"cancelled", "canceled"})
      && (s == "queued" <==> forall j :: 0 <= j < |keys| ==> keys[j] in {"queued"})
      && (s in {"queued", "running"} <==> !forall j :: 0 <= j < |keys| ==> !InFlightKey(keys[j]))
      && s in {"completed", "failed", "cancelled", "partial", "queued", "running"}
  {
    var first := keys[0];
    if forall j :: 0 <= j < |keys| ==> keys[j] in {"queued"} {
      assert InFlightKey(first);
    }
  }

  /** All runs reported one of these words, none of which stands for a run under way, or
      the one that stands for a run not sent. */
  lemma AllIn(keys: seq<string>, b: Batch, i: nat, arrivals: seq<Arrival>, words: set<string>)
    requires i < |b.cvs| && |keys| == b.runCount && "dispatched" !in words
    requires forall j :: 0 <= j < b.runCount ==> KeyTells(keys[j], arrivals, RunIdOf(b, i, j))
    ensures AllReported(b, i, arrivals, words) <==> forall j :: 0 <= j < |keys| ==> keys[j] in words
  {
    hide RunIdOf, Heard, ReportedAs;
  }

  lemma NoneIn(keys: seq<string>, b: Batch, i: nat, arrivals: seq<Arrival>)
    requires i < |b.cvs| && |keys| == b.runCount
    requires forall j :: 0 <= j < b.runCount ==> KeyTells(keys[j], arrivals, RunIdOf(b, i, j))
    ensures NoneInFlight(b, i, arrivals) <==> forall j :: 0 <= j < |keys| ==> !InFlightKey(keys[j])
  {
    hide RunIdOf, Heard, ReportedAs;
    var words := {"queued", "dispatched", "running", ""};
    forall j | 0 <= j < b.runCount
      ensures Heard(arrivals, RunIdOf(b, i, j)) && !ReportedAs(arrivals, RunIdOf(b, i, j), words)
         <==> !InFlightKey(keys[j])
    {
      assert KeyTells(keys[j], arrivals, RunIdOf(b, i, j));
    }
  }

  // ---- when things happened --------------------------------------------------------------------------

  ghost predicate RunTimes(run: Run, t1: Time, arrivals: seq<Arrival>) {
    && (run.dispatchedAt.Some? ==> run.dispatchedAt == Some(t1))
    && (run.completedAt.Some? ==>
         exists k ::
           0 <= k < |arrivals| && arrivals[k].result.runId == run.runId && run.completedAt == Some(arrivals[k].at))
  }

  ghost predicate Times(p: Snapshot, t1: Time, arrivals: seq<Arrival>) {
    forall i, j :: 0 <= i < |p.apps| && 0 <= j < |p.apps[i].runs| ==> RunTimes(p.apps[i].runs[j], t1, arrivals)
  }

  lemma {:induction false} DispatchTimes(b: Batch, t0: Time, t1: Time, ids: seq<string>)
    ensures Times(Dispatched(InitialProgress(b, t0), ids, t1), t1, [])
  {
    hide FindRun, RunIdOf;
    if ids != [] {
      DispatchTimes(b, t0, t1, ids[..|ids| - 1]);
    }
  }

  lemma LaterTimes(run: Run, t1: Time, arrivals: seq<Arrival>)
    requires arrivals != [] && RunTimes(run, t1, arrivals[..|arrivals| - 1])
    ensures RunTimes(run, t1, arrivals)
  {
    if run.completedAt.Some? {
      var front := arrivals[..|arrivals| - 1];
      var k :| 0 <= k < |front| && front[k].result.runId == run.runId && run.completedAt == Some(front[k].at);
      assert arrivals[k] == front[k];
    }
  }

  lemma {:induction false} ResultTimes(b: Batch, t0: Time, t1: Time, arrivals: seq<Arrival>)
    ensures Times(StateAfter(b, t0, t1, arrivals), t1, arrivals)
  {
    if arrivals == [] {
      DispatchTimes(b, t0, t1, RunIds(b));
    } else {
      hide FindRun, Dispatched, InitialProgress, IsTerminalStatus, SummarizeApplicationStatus, TerminalIds, Names;
      var n := |arrivals| - 1;
      var p, q := StateAfter(b, t0, t1, arrivals[..n]), StateAfter(b, t0, t1, arrivals);
      ResultTimes(b, t0, t1, arrivals[..n]);
      assert q == RecordResult(p, arrivals[n].result, arrivals[n].at);
      hide Collected;
      forall i, j | 0 <= i < |q.apps| && 0 <= j < |q.apps[i].runs| ensures RunTimes(q.apps[i].runs[j], t1, arrivals) {
        if q.apps[i].runs[j] == p.apps[i].runs[j] {
          LaterTimes(p.apps[i].runs[j], t1, arrivals);
        } else {
          FoundHere(p, arrivals[n].result.runId, i, j, arrivals[n].result, arrivals[n].at);
        }
      }
    }
  }

  /** The only run a result changes is the one it is for. */
  lemma FoundHere(p: Snapshot, id: string, i: nat, j: nat, r: RunResult, t: Time)
    requires var q := RecordResult(p, r, t);
      i < |q.apps| == |p.apps| && j < |q.apps[i].runs| == |p.apps[i].runs| && q.apps[i].runs[j] != p.apps[i].runs[j]
    requires r.runId == id
    ensures p.apps[i].runs[j].runId == id
    ensures RecordResult(p, r, t).apps[i].runs[j] == FinishedRun(p.apps[i].runs[j], r, t)
  {
    hide IsTerminalStatus, SummarizeApplicationStatus, TerminalIds, Names, IsApplicationTerminal;
  }

  // ---- each run -----------------------------------------------------------------------------------------

  ghost predicate NamesAt(names: seq<string>, artifacts: seq<Artifact>, places: seq<nat>) {
    && |names| == |places|
    && forall m :: 0 <= m < |places| ==> places[m] < |artifacts| && names[m] == artifacts[places[m]].name
  }

  /** The names of the artifacts that have one, in order. */
  ghost predicate NamesTell(names: seq<string>, artifacts: seq<Artifact>, places: seq<nat>) {
    Picks(artifacts, HasName, places) && NamesAt(names, artifacts, places)
  }

  predicate HasName(a: Artifact) {
    a.name != ""
  }

  lemma NamesBehind(artifacts: seq<Artifact>, tail: seq<string>, rest: seq<nat>, places: seq<nat>)
    requires artifacts != [] && NamesAt(tail, artifacts[1..], rest) && |places| == |rest|
    requires forall m :: 0 <= m < |places| ==> places[m] == rest[m] + 1
    ensures NamesAt(tail, artifacts, places)
  {
  }

  lemma NamesToo(artifacts: seq<Artifact>, tail: seq<string>, rest: seq<nat>, places: seq<nat>)
    requires artifacts != [] && NamesAt(tail, artifacts[1..], rest) && |places| == |rest| + 1 && places[0] == 0
    requires forall m :: 0 < m < |places| ==> places[m] == rest[m - 1] + 1
    ensures NamesAt([artifacts[0].name] + tail, artifacts, places)
  {
    NamesBehind(artifacts, tail, rest, places[1..]);
    hide NamesAt;
    NameInFront(artifacts, tail, places);
  }

  lemma NameInFront(artifacts: seq<Artifact>, tail: seq<string>, places: seq<nat>)
    requires places != [] && NamesAt(tail, artifacts, places[1..]) && places[0] == 0 && artifacts != []
    ensures NamesAt([artifacts[0].name] + tail, artifacts, places)
  {
    forall m | 0 <= m < |places|
      ensures places[m] < |artifacts| && ([artifacts[0].name] + tail)[m] == artifacts[places[m]].name
    {
      assert m > 0 ==> places[m] == places[1..][m - 1];
    }
  }

  lemma {:induction false} NamesPicked(artifacts: seq<Artifact>) returns (places: seq<nat>)
    ensures NamesTell(Names(artifacts), artifacts, places)
  {
    if artifacts == [] {
      places := [];
    } else {
      var rest := NamesPicked(artifacts[1..]);
      PicksFirst(artifacts, HasName, rest);
      places := Onward(HasName(artifacts[0]), rest);
      hide NamesAt, Picks, Onward;
      if HasName(artifacts[0]) {
        NamesToo(artifacts, Names(artifacts[1..]), rest, places);
      } else {
        NamesBehind(artifacts, Names(artifacts[1..]), rest, places);
      }
    }
  }

  /** A run that reported shows what its own result said, and when it came. */
  ghost predicate ShowsResult(run: Run, a: Arrival) {
    var r := a.result;
    && run.status == r.status && run.errorMessage == r.errorMessage && run.completedAt == Some(a.at)
    && run.evidence.Some?
    && run.evidence.value.durationMs == r.durationMs
    && run.evidence.value.tokensPrompt == r.tokensPrompt
    && run.evidence.value.tokensCompletion == r.tokensCompletion
    && run.evidence.value.correlationId == r.correlationId
    && run.evidence.value.traceparent == r.traceparent
    && run.evidence.value.artifacts == (if r.artifacts.Some? then r.artifacts.value else [])
    && run.artifactCount == |run.evidence.value.artifacts|
    && exists places :: NamesTell(run.artifactNames, run.evidence.value.artifacts, places)
  }

  ghost predicate RunTells(run: Run, id: string, j: nat, t1: Time, arrivals: seq<Arrival>) {
    && run.runId == id && run.runIndex == j && run.dispatchedAt == Some(t1)
    && (!Heard(arrivals, id) ==>
         && run.status == "dispatched" && run.completedAt.None? && run.errorMessage.None? && run.evidence.None?
         && run.artifactCount == 0 && run.artifactNames == [])
    && forall k :: 0 <= k < |arrivals| && arrivals[k].result.runId == id ==> ShowsResult(run, arrivals[k])
  }

  lemma FinishedShows(run: Run, a: Arrival)
    ensures ShowsResult(FinishedRun(run, a.result, a.at), a)
  {
    var places := NamesPicked(ArtifactsOf(a.result));
    hide Names, NamesTell;
  }

  lemma RunFromMatch(b: Batch, run: Run, id: string, j: nat, t1: Time, arrivals: seq<Arrival>)
    requires ValidArrivals(b, arrivals) && id in RunIds(b) && RunTimes(run, t1, arrivals)
    requires RunMatches(run, id, j, IdSet(RunIds(b)), ResultsOf(arrivals))
    ensures RunTells(run, id, j, t1, arrivals)
  {
    hide RunIds, ResultsOf, Names, ShowsResult;
    ResultsOfMembers(arrivals);
    if Heard(arrivals, id) {
      var l :| 0 <= l < |arrivals| && arrivals[l].result == ResultsOf(arrivals)[id] && arrivals[l].result.runId == id;
      FinishedShows(DispatchedRun(QueuedRun(id, j), t1), arrivals[l]);
    }
  }

  // ---- the whole record -----------------------------------------------------------------------------------

  ghost predicate AppTells(app: App, b: Batch, i: nat, t1: Time, arrivals: seq<Arrival>)
    requires i < |b.cvs|
  {
    && app.applicationId == b.cvs[i].applicationId && app.documentId == b.cvs[i].documentId
    && app.runsTotal == |app.runs| == b.runCount
    && StatusTells(app.status, b, i, arrivals)
    && app.runsCompleted == |HeardRuns(b, i, arrivals)|
    && forall j :: 0 <= j < b.runCount ==> RunTells(app.runs[j], RunIdOf(b, i, j), j, t1, arrivals)
  }

  ghost function HeardRuns(b: Batch, i: nat, arrivals: seq<Arrival>): set<int>
    requires i < |b.cvs|
  {
    set j | 0 <= j < b.runCount && Heard(arrivals, RunIdOf(b, i, j))
  }

  /** The CVs of which every run reported one of the words that end it. */
  ghost function EndedCvs(b: Batch, arrivals: seq<Arrival>): set<int> {
    set i: nat |
      i < |b.cvs| && AllReported(b, i, arrivals, {"succeeded", "completed", "failed", "cancelled", "canceled"})
  }

  lemma RunOfBatch(b: Batch, i: nat, j: nat)
    requires i < |b.cvs| && j < b.runCount
    ensures RunIdOf(b, i, j) in RunIds(b)
  {
    RunIdsExactly(b);
    assert IsRunOf(b, RunIdOf(b, i, j), i, j);
  }

  lemma AppFromMatch(b: Batch, app: App, i: nat, t1: Time, arrivals: seq<Arrival>)
    requires b.runCount >= 1 && ValidArrivals(b, arrivals) && i < |b.cvs|
    requires AppMatches(app, b, i, IdSet(RunIds(b)), ResultsOf(arrivals)) && AppCachesAgree(app)
    requires forall j :: 0 <= j < |app.runs| ==> RunTimes(app.runs[j], t1, arrivals)
    ensures AppTells(app, b, i, t1, arrivals)
    ensures IsApplicationTerminal(app.runs) <==>
      AllReported(b, i, arrivals, {"succeeded", "completed", "failed", "cancelled", "canceled"})
  {
    hide RunMatches, KeyTells, RunTells, StatusTells, RunIds, RunIdOf, ResultsOf, ReportedAs, Heard, SummarizeKeys;
    hide StatusKey, RunTimes, ValidArrivals, Sum;
    forall j | 0 <= j < b.runCount
      ensures KeyTells(Keys(app.runs)[j], arrivals, RunIdOf(b, i, j))
      ensures RunTells(app.runs[j], RunIdOf(b, i, j), j, t1, arrivals)
      ensures CompletedBit(app.runs[j]) == 1 <==> Heard(arrivals, RunIdOf(b, i, j))
    {
      RunOfBatch(b, i, j);
      RunKeyTells(b, arrivals, app.runs[j], RunIdOf(b, i, j), j);
      RunFromMatch(b, app.runs[j], RunIdOf(b, i, j), j, t1, arrivals);
      CompletedIsHeard(b, app.runs[j], RunIdOf(b, i, j), j, arrivals);
    }
    SummaryTells(Keys(app.runs), b, i, arrivals);
    AllIn(Keys(app.runs), b, i, arrivals, {"succeeded", "completed", "failed", "cancelled", "canceled"});
    CompletedCount(b, app, i, arrivals);
  }

  lemma CompletedCount(b: Batch, app: App, i: nat, arrivals: seq<Arrival>)
    requires i < |b.cvs| && |app.runs| == b.runCount
    requires forall j :: 0 <= j < b.runCount ==> (CompletedBit(app.runs[j]) == 1 <==> Heard(arrivals, RunIdOf(b, i, j)))
    ensures CompletedRuns(app) == |HeardRuns(b, i, arrivals)|
  {
    hide Heard, RunIdOf, Sum;
    BitsCounted(app.runs, CompletedBit);
    assert HeardRuns(b, i, arrivals) == Ones(app.runs, CompletedBit);
  }

  lemma CompletedIsHeard(b: Batch, run: Run, id: string, j: nat, arrivals: seq<Arrival>)
    requires RunMatches(run, id, j, IdSet(RunIds(b)), ResultsOf(arrivals))
    ensures CompletedBit(run) == 1 <==> Heard(arrivals, id)
  {
    hide RunIds, ResultsOf;
    ResultsOfMembers(arrivals);
  }

  /** The record after every dispatch and any results, in any order, at most one per run,
      says of each run what its own result said, of each application what its runs reported,
      and counts what was heard. */
  lemma RecordTells(b: Batch, t0: Time, t1: Time, arrivals: seq<Arrival>)
    requires b.runCount >= 1 && DistinctApplications(b) && ValidArrivals(b, arrivals)
    ensures var p := StateAfter(b, t0, t1, arrivals);
      && p.batchId == b.batchId && p.jobId == b.jobId
      && |p.apps| == p.cvsTotal == |b.cvs| && p.runsTotal == |b.cvs| * b.runCount
      && (forall i :: 0 <= i < |b.cvs| ==> AppTells(p.apps[i], b, i, t1, arrivals))
      && p.cvsCompleted == |EndedCvs(b, arrivals)|
  {
    hide Collected, Dispatched, InitialProgress;
    var p := StateAfter(b, t0, t1, arrivals);
    ResultPhase(b, t0, t1, arrivals);
    ResultTimes(b, t0, t1, arrivals);
    var sent, done := IdSet(RunIds(b)), ResultsOf(arrivals);
    hide StateAfter, RunIds, ResultsOf, AppTells, AppMatches, AppCachesAgree, RunTimes, IsApplicationTerminal, Sum;
    hide AllReported, CompletedRuns, DispatchedRuns, TerminalIds, DistinctApplications, ValidArrivals;
    DistinctAppIds(p, b, sent, done);
    TerminalCount(p.apps);
    forall i | 0 <= i < |b.cvs|
      ensures AppTells(p.apps[i], b, i, t1, arrivals)
      ensures TerminalBit(p.apps[i]) == 1 <==>
        AllReported(b, i, arrivals, {"succeeded", "completed", "failed", "cancelled", "canceled"})
    {
      AppFromMatch(b, p.apps[i], i, t1, arrivals);
    }
    BitsCounted(p.apps, TerminalBit);
    assert EndedCvs(b, arrivals) == Ones(p.apps, TerminalBit);
  }
}
