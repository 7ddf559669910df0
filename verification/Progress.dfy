/** The progress record as a value, and what each update does to it. */
module Progress {
  import opened Options
  import opened Text
  import opened Sums
  import opened Contracts

  datatype Evidence = Evidence(
    durationMs: int,
    tokensPrompt: int,
    tokensCompletion: int,
    correlationId: string,
    traceparent: Option<string>,
    artifacts: seq<Artifact>)

  datatype Run = Run(
    runId: string,
    runIndex: nat,
    status: string,
    dispatchedAt: Option<Time>,
    completedAt: Option<Time>,
    artifactCount: nat,
    artifactNames: seq<string>,
    errorMessage: Option<string>,
    evidence: Option<Evidence>)

  datatype App = App(
    applicationId: string,
    documentId: string,
    status: string,
    runsCompleted: int,
    runsTotal: nat,
    lastUpdatedAt: Time,
    runs: seq<Run>)

  datatype Snapshot = Snapshot(
    batchId: string,
    jobId: string,
    status: string,
    cvsCompleted: int,
    cvsTotal: nat,
    runsCompleted: int,
    runsDispatched: int,
    runsTotal: nat,
    lastUpdatedAt: Time,
    apps: seq<App>)

  // ---- statuses -----------------------------------------------------------------------------

  predicate IsCancelledKey(key: string) {
    key in {"cancelled", "canceled"}
  }

  predicate IsTerminalStatus(status: string) {
    StatusKey(status) in {"succeeded", "completed", "failed", "cancelled", "canceled"}
  }

  predicate IsApplicationTerminal(runs: seq<Run>) {
    forall j :: 0 <= j < |runs| ==> IsTerminalStatus(runs[j].status)
  }

  predicate InFlightKey(key: string) {
    key in {"queued", "dispatched", "running", ""}
  }

  function Keys(runs: seq<Run>): (keys: seq<string>)
    ensures |keys| == |runs|
  {
    seq(|runs|, j requires 0 <= j < |runs| => StatusKey(runs[j].status))
  }

  function SummarizeKeys(keys: seq<string>): string {
    if exists j :: 0 <= j < |keys| && InFlightKey(keys[j]) then
      if exists j :: 0 <= j < |keys| && keys[j] != "queued" then "running" else "queued"
    else if forall j :: 0 <= j < |keys| ==> keys[j] in {"succeeded", "completed"} then "completed"
    else if forall j :: 0 <= j < |keys| ==> keys[j] == "failed" then "failed"
    else if forall j :: 0 <= j < |keys| ==> IsCancelledKey(keys[j]) then "cancelled"
    else "partial"
  }

  function SummarizeApplicationStatus(runs: seq<Run>): string {
    SummarizeKeys(Keys(runs))
  }

  lemma KnownKeys()
    ensures StatusKey("queued") == "queued" && StatusKey("dispatched") == "dispatched"
    ensures StatusKey("running") == "running" && StatusKey("completed") == "completed"
    ensures StatusKey("failed") == "failed" && StatusKey("cancelled") == "cancelled"
    ensures StatusKey("partial") == "partial"
  {
    PlainKey("queued");
    PlainKey("dispatched");
    PlainKey("running");
    PlainKey("completed");
    PlainKey("failed");
    PlainKey("cancelled");
    PlainKey("partial");
  }

  // ---- initial record -------------------------------------------------------------------------

  function QueuedRun(id: string, j: nat): Run {
    Run(id, j, "queued", None, None, 0, [], None, None)
  }

  function InitialApp(b: Batch, i: nat, t: Time): App
    requires i < |b.cvs|
  {
    App(b.cvs[i].applicationId, b.cvs[i].documentId, "queued", 0, b.runCount, t,
        seq(b.runCount, j requires 0 <= j < b.runCount => QueuedRun(RunIdOf(b, i, j), j)))
  }

  function InitialProgress(b: Batch, t: Time): Snapshot {
    Snapshot(b.batchId, b.jobId, "queued", 0, |b.cvs|, 0, 0, |b.cvs| * b.runCount, t,
             seq(|b.cvs|, i requires 0 <= i < |b.cvs| => InitialApp(b, i, t)))
  }

  // ---- finding a run ---------------------------------------------------------------------------

  datatype Place = Place(app: nat, run: nat)

  ghost predicate HasRun(app: App, id: string) {
    exists j :: 0 <= j < |app.runs| && app.runs[j].runId == id
  }

  ghost predicate InApps(apps: seq<App>, p: Place) {
    p.app < |apps| && p.run < |apps[p.app].runs|
  }

  /** The first run with this id in the runs from the j-th on. */
  function FindIn(runs: seq<Run>, id: string, j: nat): (r: Option<nat>)
    requires j <= |runs|
    ensures r.Some? ==> j <= r.value < |runs| && runs[r.value].runId == id
    ensures r.Some? ==> forall k :: j <= k < r.value ==> runs[k].runId != id
    ensures r.None? ==> forall k :: j <= k < |runs| ==> runs[k].runId != id
    decreases |runs| - j
  {
    if j == |runs| then None else if runs[j].runId == id then Some(j) else FindIn(runs, id, j + 1)
  }

  /** The first place with this run id in the applications from the i-th on. */
  function FindRunFrom(apps: seq<App>, id: string, i: nat): (r: Option<Place>)
    requires i <= |apps|
    ensures r.Some? ==> i <= r.value.app && InApps(apps, r.value) && apps[r.value.app].runs[r.value.run].runId == id
    ensures r.Some? ==> FindIn(apps[r.value.app].runs, id, 0) == Some(r.value.run)
    ensures r.Some? ==> forall k :: i <= k < r.value.app ==> !HasRun(apps[k], id)
    ensures r.None? ==> forall k :: i <= k < |apps| ==> !HasRun(apps[k], id)
    decreases |apps| - i
  {
    if i == |apps| then None
    else match FindIn(apps[i].runs, id, 0)
      case Some(j) => Some(Place(i, j))
      case None => FindRunFrom(apps, id, i + 1)
  }

  function FindRun(p: Snapshot, id: string): (r: Option<Place>)
    ensures r.Some? ==> InApps(p.apps, r.value) && p.apps[r.value.app].runs[r.value.run].runId == id
    ensures r.None? ==> forall k :: 0 <= k < |p.apps| ==> !HasRun(p.apps[k], id)
  {
    FindRunFrom(p.apps, id, 0)
  }

  // ---- updates ---------------------------------------------------------------------------------

  function DispatchedRun(run: Run, t: Time): Run {
    run.(status := "dispatched", dispatchedAt := Some(t))
  }

  function DispatchedApp(app: App, j: nat, t: Time): App
    requires j < |app.runs|
  {
    app.(status := "running", lastUpdatedAt := t, runs := app.runs[j := DispatchedRun(app.runs[j], t)])
  }

  function RecordDispatched(p: Snapshot, id: string, t: Time): Snapshot {
    match FindRun(p, id)
    case None => p
    case Some(Place(i, j)) =>
      p.(runsDispatched := p.runsDispatched + (if p.apps[i].runs[j].status == "queued" then 1 else 0),
         apps := p.apps[i := DispatchedApp(p.apps[i], j, t)],
         status := "running",
         lastUpdatedAt := t)
  }

  function Names(artifacts: seq<Artifact>): seq<string> {
    if artifacts == [] then []
    else (if artifacts[0].name != "" then [artifacts[0].name] else []) + Names(artifacts[1..])
  }

  function FinishedRun(run: Run, r: RunResult, t: Time): Run {
    var artifacts := ArtifactsOf(r);
    run.(status := r.status,
         completedAt := Some(t),
         artifactCount := |artifacts|,
         artifactNames := Names(artifacts),
         errorMessage := r.errorMessage,
         evidence := Some(Evidence(r.durationMs, r.tokensPrompt, r.tokensCompletion, r.correlationId, r.traceparent,
             artifacts)))
  }

  function FinishedApp(app: App, j: nat, r: RunResult, t: Time): App
    requires j < |app.runs|
  {
    var runs := app.runs[j := FinishedRun(app.runs[j], r, t)];
    app.(runs := runs,
         runsCompleted := app.runsCompleted + 1,
         status := SummarizeApplicationStatus(runs),
         lastUpdatedAt := t)
  }

  /** The ids of the applications all of whose runs are terminal. */
  function TerminalIds(apps: seq<App>): set<string> {
    set i | 0 <= i < |apps| && IsApplicationTerminal(apps[i].runs) :: apps[i].applicationId
  }

  function RecordResult(p: Snapshot, r: RunResult, t: Time): Snapshot {
    if r.runId == "" then p
    else match FindRun(p, r.runId)
      case None => p
      case Some(Place(i, j)) =>
        if IsTerminalStatus(p.apps[i].runs[j].status) then p
        else
          var app := FinishedApp(p.apps[i], j, r, t);
          var apps := p.apps[i := app];
          p.(runsCompleted := p.runsCompleted + 1,
             apps := apps,
             cvsCompleted := if IsApplicationTerminal(app.runs) then |TerminalIds(apps)| else p.cvsCompleted,
             status := "running",
             lastUpdatedAt := t)
  }

  // ---- recounts --------------------------------------------------------------------------------

  function DispatchedBit(run: Run): int { if run.dispatchedAt.Some? then 1 else 0 }
  function CompletedBit(run: Run): int { if run.completedAt.Some? then 1 else 0 }
  function NonQueuedBit(run: Run): int { if run.status != "queued" then 1 else 0 }
  function RequeuedBit(run: Run): int { if run.dispatchedAt.Some? && run.status == "queued" then 1 else 0 }
  function DispatchedRuns(app: App): int { Sum(app.runs, DispatchedBit) }
  function CompletedRuns(app: App): int { Sum(app.runs, CompletedBit) }
  function NonQueuedRuns(app: App): int { Sum(app.runs, NonQueuedBit) }
  function RequeuedRuns(app: App): int { Sum(app.runs, RequeuedBit) }
  function CachedCompleted(app: App): int { app.runsCompleted }
  function TerminalBit(app: App): int { if IsApplicationTerminal(app.runs) then 1 else 0 }

  /** Every cached value equals a recount from the runs. */
  ghost predicate CachesAgree(p: Snapshot) {
    && (forall i :: 0 <= i < |p.apps| ==> AppCachesAgree(p.apps[i]))
    && p.runsCompleted == Sum(p.apps, CompletedRuns)
    && p.runsDispatched == Sum(p.apps, DispatchedRuns)
    && p.cvsCompleted == |TerminalIds(p.apps)|
  }

  ghost predicate AppCachesAgree(app: App) {
    && app.status == SummarizeApplicationStatus(app.runs)
    && app.runsCompleted == CompletedRuns(app)
  }

  /** Replacing one application changes a sum by the difference at that place. */
  lemma SumsAfter(p: Snapshot, i: nat, app: App)
    requires i < |p.apps|
    ensures Sum(p.apps[i := app], CompletedRuns) ==
      Sum(p.apps, CompletedRuns) - CompletedRuns(p.apps[i]) + CompletedRuns(app)
    ensures Sum(p.apps[i := app], DispatchedRuns) ==
      Sum(p.apps, DispatchedRuns) - DispatchedRuns(p.apps[i]) + DispatchedRuns(app)
  {
    SumUpdate(p.apps, i, app, CompletedRuns);
    SumUpdate(p.apps, i, app, DispatchedRuns);
  }

  lemma RunSumsAfter(app: App, j: nat, run: Run, app': App)
    requires j < |app.runs| && app'.runs == app.runs[j := run]
    ensures CompletedRuns(app') == CompletedRuns(app) - CompletedBit(app.runs[j]) + CompletedBit(run)
    ensures DispatchedRuns(app') == DispatchedRuns(app) - DispatchedBit(app.runs[j]) + DispatchedBit(run)
  {
    SumUpdate(app.runs, j, run, CompletedBit);
    SumUpdate(app.runs, j, run, DispatchedBit);
  }

  lemma NotTerminalWith(runs: seq<Run>, j: nat)
    requires j < |runs| && !IsTerminalStatus(runs[j].status)
    ensures !IsApplicationTerminal(runs)
  {
  }

  /** Only the replaced application can join or leave the terminal ones. */
  lemma TerminalIdsAfter(apps: seq<App>, i: nat, app: App)
    requires i < |apps| && !IsApplicationTerminal(apps[i].runs) && !IsApplicationTerminal(app.runs)
    ensures TerminalIds(apps[i := app]) == TerminalIds(apps)
  {
    forall id | id in TerminalIds(apps) ensures id in TerminalIds(apps[i := app]) {
      var k :| 0 <= k < |apps| && IsApplicationTerminal(apps[k].runs) && apps[k].applicationId == id;
      assert apps[i := app][k] == apps[k];
    }
    forall id | id in TerminalIds(apps[i := app]) ensures id in TerminalIds(apps) {
      var k :| 0 <= k < |apps| && IsApplicationTerminal(apps[i := app][k].runs)
          && apps[i := app][k].applicationId == id;
      assert apps[i := app][k] == apps[k];
    }
  }

  lemma OneMoreTerminal(apps: seq<App>, i: nat)
    requires i < |apps|
    ensures TerminalIds(apps[..i + 1]) ==
      TerminalIds(apps[..i]) + if IsApplicationTerminal(apps[i].runs) then {apps[i].applicationId} else {}
  {
    hide IsApplicationTerminal;
    var more, fewer := apps[..i + 1], apps[..i];
    forall id | id in TerminalIds(fewer) ensures id in TerminalIds(more) {
      var k :| 0 <= k < |fewer| && IsApplicationTerminal(fewer[k].runs) && fewer[k].applicationId == id;
      assert more[k] == fewer[k];
    }
    forall id | id in TerminalIds(more)
      ensures id in TerminalIds(fewer) || (id == apps[i].applicationId && IsApplicationTerminal(apps[i].runs)) {
      var k :| 0 <= k < |more| && IsApplicationTerminal(more[k].runs) && more[k].applicationId == id;
      assert k < i ==> fewer[k] == more[k];
    }
    if IsApplicationTerminal(apps[i].runs) {
      assert more[i] == apps[i];
    }
  }

  lemma SummaryWithDispatched(runs: seq<Run>, j: nat)
    requires j < |runs| && runs[j].status == "dispatched"
    ensures SummarizeApplicationStatus(runs) == "running"
    ensures !IsTerminalStatus(runs[j].status)
  {
    KnownKeys();
    hide StatusKey;
    assert Keys(runs)[j] == "dispatched";
  }

  /** Recording a dispatch keeps all caches exact when the application is not finished and
      its run is queued exactly as long as it was never dispatched. */
  lemma DispatchKeepsCaches(p: Snapshot, id: string, t: Time)
    requires CachesAgree(p) && FindRun(p, id).Some?
    requires var Place(i, j) := FindRun(p, id).value;
      && !IsApplicationTerminal(p.apps[i].runs)
      && (p.apps[i].runs[j].status == "queued" <==> p.apps[i].runs[j].dispatchedAt.None?)
    ensures CachesAgree(RecordDispatched(p, id, t))
  {
    var Place(i, j) := FindRun(p, id).value;
    var app := DispatchedApp(p.apps[i], j, t);
    RunSumsAfter(p.apps[i], j, DispatchedRun(p.apps[i].runs[j], t), app);
    SumsAfter(p, i, app);
    SummaryWithDispatched(app.runs, j);
    NotTerminalWith(app.runs, j);
    TerminalIdsAfter(p.apps, i, app);
  }

  /** Dispatches have to precede results: recording one keeps the caches exact precisely as
      long as the run's application is not finished. On a finished one it would overwrite a
      terminal status and leave the count of completed CVs behind. */
  lemma LateDispatch(p: Snapshot, id: string, t: Time)
    requires CachesAgree(p) && FindRun(p, id).Some?
    requires forall k, l :: 0 <= k < l < |p.apps| ==> p.apps[k].applicationId != p.apps[l].applicationId
    requires var Place(i, j) := FindRun(p, id).value;
      p.apps[i].runs[j].status == "queued" <==> p.apps[i].runs[j].dispatchedAt.None?
    ensures CachesAgree(RecordDispatched(p, id, t)) <==> !IsApplicationTerminal(p.apps[FindRun(p, id).value.app].runs)
  {
    var Place(i, j) := FindRun(p, id).value;
    if IsApplicationTerminal(p.apps[i].runs) {
      var q := RecordDispatched(p, id, t);
      SummaryWithDispatched(q.apps[i].runs, j);
      NotTerminalWith(q.apps[i].runs, j);
      OneLessTerminal(p.apps, i, q.apps[i]);
    } else {
      DispatchKeepsCaches(p, id, t);
    }
  }

  lemma OneLessTerminal(apps: seq<App>, i: nat, app: App)
    requires i < |apps| && IsApplicationTerminal(apps[i].runs) && !IsApplicationTerminal(app.runs)
    requires forall k, l :: 0 <= k < l < |apps| ==> apps[k].applicationId != apps[l].applicationId
    requires app.applicationId == apps[i].applicationId
    ensures |TerminalIds(apps[i := app])| < |TerminalIds(apps)|
  {
    hide IsApplicationTerminal;
    var apps' := apps[i := app];
    forall id | id in TerminalIds(apps') ensures id in TerminalIds(apps) && id != apps[i].applicationId {
      var k :| 0 <= k < |apps'| && IsApplicationTerminal(apps'[k].runs) && apps'[k].applicationId == id;
      assert k != i && apps[k] == apps'[k];
    }
    var rest := TerminalIds(apps) - {apps[i].applicationId} - TerminalIds(apps');
    assert TerminalIds(apps) == TerminalIds(apps') + ({apps[i].applicationId} + rest);
  }

  /** Recording a result keeps all caches exact when it is the run's first. */
  lemma ResultKeepsCaches(p: Snapshot, r: RunResult, t: Time)
    requires CachesAgree(p) && FindRun(p, r.runId).Some?
    requires var Place(i, j) := FindRun(p, r.runId).value; p.apps[i].runs[j].completedAt.None?
    ensures CachesAgree(RecordResult(p, r, t))
  {
    hide SummarizeApplicationStatus, IsTerminalStatus, Names, Sum;
    var Place(i, j) := FindRun(p, r.runId).value;
    if r.runId != "" && !IsTerminalStatus(p.apps[i].runs[j].status) {
      var app := FinishedApp(p.apps[i], j, r, t);
      RunSumsAfter(p.apps[i], j, FinishedRun(p.apps[i].runs[j], r, t), app);
      SumsAfter(p, i, app);
      if !IsApplicationTerminal(app.runs) {
        NotTerminalWith(p.apps[i].runs, j);
        TerminalIdsAfter(p.apps, i, app);
      }
    }
  }

  /** Once a run has a result, a second one is harmless exactly when the first was terminal:
      after a `Partial`, say, it would be counted twice. */
  lemma SecondResult(p: Snapshot, r: RunResult, t: Time)
    requires CachesAgree(p) && r.runId != "" && FindRun(p, r.runId).Some?
    requires var Place(i, j) := FindRun(p, r.runId).value; p.apps[i].runs[j].completedAt.Some?
    ensures var Place(i, j) := FindRun(p, r.runId).value;
      CachesAgree(RecordResult(p, r, t)) <==> IsTerminalStatus(p.apps[i].runs[j].status)
  {
    var Place(i, j) := FindRun(p, r.runId).value;
    if !IsTerminalStatus(p.apps[i].runs[j].status) {
      var app := FinishedApp(p.apps[i], j, r, t);
      RunSumsAfter(p.apps[i], j, FinishedRun(p.apps[i].runs[j], r, t), app);
      SumsAfter(p, i, app);
    }
  }
}
