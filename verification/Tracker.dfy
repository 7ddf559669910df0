/** The progress record as the orchestrator keeps it: objects updated in place. */
module Tracker {
  import opened Options
  import opened Contracts
  import opened Progress
  import Orchestration

  class Application {
    const applicationId: string
    const documentId: string
    const runsTotal: nat
    const runs: array<Run>
    var status: string
    var runsCompleted: int
    var lastUpdatedAt: Time

    constructor (b: Batch, i: nat, t: Time)
      requires i < |b.cvs|
      ensures View() == InitialApp(b, i, t)
      ensures fresh(runs)
    {
      applicationId := b.cvs[i].applicationId;
      documentId := b.cvs[i].documentId;
      runsTotal := b.runCount;
      runs := new Run[b.runCount](j requires 0 <= j < b.runCount => QueuedRun(RunIdOf(b, i, j), j));
      status, runsCompleted, lastUpdatedAt := "queued", 0, t;
    }

    function View(): (app: App)
      reads this, runs
      ensures app.runs == runs[..]
    {
      App(applicationId, documentId, status, runsCompleted, runsTotal, lastUpdatedAt, runs[..])
    }

    method RunDispatched(j: nat, updatedAt: Time)
      requires j < runs.Length
      modifies this, runs
      ensures View() == DispatchedApp(old(View()), j, updatedAt)
    {
      runs[j] := runs[j].(status := "dispatched", dispatchedAt := Some(updatedAt));
      status := "running";
      lastUpdatedAt := updatedAt;
    }

    method RunFinished(j: nat, runResult: RunResult, updatedAt: Time)
      requires j < runs.Length
      modifies this, runs
      ensures View() == FinishedApp(old(View()), j, runResult, updatedAt)
    {
      hide SummarizeApplicationStatus, Names;
      var artifacts := ArtifactsOf(runResult);
      runs[j] := runs[j].(
        status := runResult.status,
        evidence := Some(Evidence(runResult.durationMs, runResult.tokensPrompt, runResult.tokensCompletion,
                                  runResult.correlationId, runResult.traceparent, artifacts)),
        artifactCount := |artifacts|,
        artifactNames := Names(artifacts),
        errorMessage := runResult.errorMessage,
        completedAt := Some(updatedAt));
      runsCompleted := runsCompleted + 1;
      status := SummarizeApplicationStatus(runs[..]);
      lastUpdatedAt := updatedAt;
    }
  }

  class ProgressRecord {
    const batchId: string
    const jobId: string
    const cvsTotal: nat
    const runsTotal: nat
    const applications: seq<Application>
    var status: string
    var cvsCompleted: int
    var runsCompleted: int
    var runsDispatched: int
    var lastUpdatedAt: Time

    /** No two applications are one object or share their runs. */
    ghost predicate Valid() {
      forall i, k :: 0 <= i < k < |applications| ==>
        applications[i] != applications[k] && applications[i].runs != applications[k].runs
    }

    ghost function Parts(): set<object> {
      (set i | 0 <= i < |applications| :: applications[i] as object)
      + (set i | 0 <= i < |applications| :: applications[i].runs as object)
    }

    function View(): (p: Snapshot)
      reads this, Parts()
      ensures |p.apps| == |applications|
      ensures forall i :: 0 <= i < |applications| ==> p.apps[i] == applications[i].View()
    {
      Snapshot(batchId, jobId, status, cvsCompleted, cvsTotal, runsCompleted, runsDispatched, runsTotal, lastUpdatedAt,
               seq(|applications|, i requires 0 <= i < |applications| reads Parts() => applications[i].View()))
    }

    constructor (b: Batch, t: Time)
      ensures Valid() && fresh(Parts())
      ensures View() == InitialProgress(b, t)
    {
      var apps: seq<Application> := [];
      for i := 0 to |b.cvs|
        invariant |apps| == i
        invariant forall k :: 0 <= k < i ==> fresh(apps[k]) && fresh(apps[k].runs)
        invariant forall k :: 0 <= k < i ==> apps[k].View() == InitialApp(b, k, t)
        invariant forall k, l :: 0 <= k < l < i ==> apps[k] != apps[l] && apps[k].runs != apps[l].runs
      {
        var app := new Application(b, i, t);
        apps := apps + [app];
      }
      batchId, jobId, cvsTotal, runsTotal := b.batchId, b.jobId, |b.cvs|, |b.cvs| * b.runCount;
      applications := apps;
      status, cvsCompleted, runsCompleted, runsDispatched, lastUpdatedAt := "queued", 0, 0, 0, t;
      new;
      assert View().apps == InitialProgress(b, t).apps;
    }

    /** Walks applications and runs in order and stops at the first match. */
    method FindApplicationRun(runId: string) returns (r: Option<Place>)
      ensures r == FindRun(View(), runId)
    {
      for i := 0 to |applications|
        invariant FindRunFrom(View().apps, runId, 0) == FindRunFrom(View().apps, runId, i)
      {
        var runs := applications[i].runs;
        for j := 0 to runs.Length
          invariant FindIn(runs[..], runId, 0) == FindIn(runs[..], runId, j)
        {
          if runs[j].runId == runId {
            return Some(Place(i, j));
          }
        }
      }
      r := None;
    }

    method FindApplication(applicationId: string) returns (r: Option<Application>)
      ensures r.Some? ==> r.value in applications
      ensures Orchestration.FindApplication(View().apps, applicationId) == if r.Some? then
          Some(r.value.View()) else None
    {
      ghost var apps := View().apps;
      for i := 0 to |applications|
        invariant Orchestration.FindApplication(apps, applicationId) ==
            Orchestration.FindApplication(apps[i..], applicationId)
      {
        if applications[i].applicationId == applicationId {
          return Some(applications[i]);
        }
        assert apps[i..][1..] == apps[i + 1..];
      }
      r := None;
    }

    method CompletedIds() returns (ids: set<string>)
      ensures ids == TerminalIds(View().apps)
    {
      hide IsApplicationTerminal;
      ghost var apps := View().apps;
      ids := {};
      for i := 0 to |applications|
        invariant ids == TerminalIds(apps[..i])
      {
        OneMoreTerminal(apps, i);
        if IsApplicationTerminal(applications[i].runs[..]) {
          ids := ids + {applications[i].applicationId};
        }
      }
      assert apps[..|apps|] == apps;
    }

    /** Changing one application and its runs changes the record's view there only. */
    twostate lemma OthersUnchanged(i: nat)
      requires i < |applications| && Valid()
      requires forall k :: 0 <= k < |applications| && k != i ==> unchanged(applications[k], applications[k].runs)
      ensures View().apps == old(View().apps)[i := applications[i].View()]
    {
    }

    method RecordDispatchedRun(runId: string, updatedAt: Time)
      requires Valid()
      modifies this, Parts()
      ensures View() == RecordDispatched(old(View()), runId, updatedAt)
    {
      hide DispatchedApp, FindRun;
      var found := FindApplicationRun(runId);
      if found.None? {
        return;
      }
      var Place(i, j) := found.value;
      var application := applications[i];
      if application.runs[j].status == "queued" {
        runsDispatched := runsDispatched + 1;
      }
      application.RunDispatched(j, updatedAt);
      status := "running";
      lastUpdatedAt := updatedAt;
      OthersUnchanged(i);
    }

    method RecordRunResult(runResult: RunResult, updatedAt: Time)
      requires Valid()
      modifies this, Parts()
      ensures View() == RecordResult(old(View()), runResult, updatedAt)
    {
      hide FinishedApp, FindRun, IsTerminalStatus, IsApplicationTerminal, TerminalIds;
      if runResult.runId == "" {
        return;
      }
      var found := FindApplicationRun(runResult.runId);
      if found.None? {
        return;
      }
      var Place(i, j) := found.value;
      var application := applications[i];
      if IsTerminalStatus(application.runs[j].status) {
        return;
      }
      application.RunFinished(j, runResult, updatedAt);
      runsCompleted := runsCompleted + 1;
      OthersUnchanged(i);
      if IsApplicationTerminal(application.runs[..]) {
        var completedIds := CompletedIds();
        cvsCompleted := |completedIds|;
      }
      status := "running";
      lastUpdatedAt := updatedAt;
      OthersUnchanged(i);
    }
  }
}
