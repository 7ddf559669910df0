/** Which events an orchestration sends, and what their numbers say. */
module EventTheorems {
  import opened Options
  import opened Text
  import opened Sums
  import opened Contracts
  import opened Progress
  import opened Reachability
  import opened ProgressTheorems
  import opened Orchestration

  // ---- each run and application is told of once ----------------------------------------------------

  /** How many events of a kind name a run. */
  function Sent(log: seq<LiveEvent>, kind: EventKind, runId: string): nat {
    if log == [] then 0
    else
      var last := log[|log| - 1];
      Sent(log[..|log| - 1], kind, runId) + if last.kind == kind && last.runId == Some(runId) then 1 else 0
  }

  lemma SentMore(log: seq<LiveEvent>, e: LiveEvent, kind: EventKind, runId: string)
    ensures Sent(log + [e], kind, runId) ==
      Sent(log, kind, runId) + if e.kind == kind && e.runId == Some(runId) then 1 else 0
  {
    assert (log + [e])[..|log|] == log;
  }

  function Once(b: bool): nat {
    if b then 1 else 0
  }

  /** What was sent about the end of a run: nothing as long as it has not `ended`, then one
      event, which tells a failed run and a cancelled one, in either spelling and any case,
      from all others. */
  ghost predicate EndTold(log: seq<LiveEvent>, id: string, ended: bool, status: string) {
    var failed, cancelled := StatusKey(status) == "failed", StatusKey(status) in {"cancelled", "canceled"};
    && Sent(log, RunFailed, id) == Once(ended && failed)
    && Sent(log, RunCancelled, id) == Once(ended && cancelled)
    && Sent(log, RunCompleted, id) == Once(ended && !failed && !cancelled)
  }

  /** One event for the dispatch of a dispatched run; and for a run that reported, one that
      tells how it ended. No others. */
  ghost predicate RunTold(log: seq<LiveEvent>, run: Run) {
    && Sent(log, RunDispatched, run.runId) == DispatchedBit(run)
    && EndTold(log, run.runId, run.completedAt.Some?, run.status)
  }

  /** One announcement, naming its first run, for an application all of whose runs are
      terminal, and none for any other. */
  ghost predicate AppTold(log: seq<LiveEvent>, app: App) {
    app.runs != [] ==> Sent(log, ApplicationCompleted, app.runs[0].runId) == TerminalBit(app)
  }

  ghost predicate AllTold(log: seq<LiveEvent>, app: App) {
    AppTold(log, app) && forall j :: 0 <= j < |app.runs| ==> RunTold(log, app.runs[j])
  }

  ghost predicate EachToldOnce(s: State) {
    forall i :: 0 <= i < |s.progress.apps| ==> AllTold(s.log, s.progress.apps[i])
  }

  /** What holds whenever the orchestrator waits. */
  ghost predicate InStep(s: State) {
    Counted(s) && EachToldOnce(s)
  }

  /** An event that names no run of an application leaves what was told of it alone. */
  lemma OthersTold(log: seq<LiveEvent>, e: LiveEvent, app: App)
    requires AllTold(log, app) && forall j :: 0 <= j < |app.runs| ==> e.runId != Some(app.runs[j].runId)
    ensures AllTold(log + [e], app)
  {
    hide Sent, TerminalBit, DispatchedBit, TerminalRunKind;
    if app.runs != [] {
      SentMore(log, e, ApplicationCompleted, app.runs[0].runId);
    }
    forall j | 0 <= j < |app.runs| ensures RunTold(log + [e], app.runs[j]) {
      assert RunTold(log, app.runs[j]);
      OtherRunTold(log, e, app.runs[j]);
    }
  }

  lemma OtherRunTold(log: seq<LiveEvent>, e: LiveEvent, run: Run)
    requires RunTold(log, run) && e.runId != Some(run.runId)
    ensures RunTold(log + [e], run)
  {
    hide Sent, DispatchedBit, StatusKey;
    forall kind ensures Sent(log + [e], kind, run.runId) == Sent(log, kind, run.runId) {
      SentMore(log, e, kind, run.runId);
    }
  }

  /** A run is dispatched and told of so. */
  lemma DispatchToldOfRun(log: seq<LiveEvent>, e: LiveEvent, run: Run, t: Time)
    requires RunTold(log, run) && run.dispatchedAt.None? && run.completedAt.None?
    requires e.kind == RunDispatched && e.runId == Some(run.runId)
    ensures RunTold(log + [e], DispatchedRun(run, t))
  {
    hide Sent, StatusKey;
    forall kind
      ensures Sent(log + [e], kind, run.runId) == Sent(log, kind, run.runId) + if e.kind == kind then 1 else 0
    {
      SentMore(log, e, kind, run.runId);
    }
  }

  /** A run reports and is told of so. */
  lemma ResultToldOfRun(log: seq<LiveEvent>, e: LiveEvent, run: Run, r: RunResult, t: Time)
    requires RunTold(log, run) && run.completedAt.None?
    requires e.kind == TerminalRunKind(r.status) && e.runId == Some(run.runId)
    ensures RunTold(log + [e], FinishedRun(run, r, t))
  {
    hide Sent, StatusKey, Names;
    forall kind
      ensures Sent(log + [e], kind, run.runId) == Sent(log, kind, run.runId) + if e.kind == kind then 1 else 0
    {
      SentMore(log, e, kind, run.runId);
    }
  }

  /** The run ids of two applications have nothing in common, nor have two runs of one. */
  lemma RunIdsApart(p: Snapshot, b: Batch, sent: set<string>, done: map<string, RunResult>, i: nat, j: nat, k: nat,
                    l: nat)
    requires DistinctApplications(b) && Fits(p, b, sent, done)
    requires i < |b.cvs| && j < b.runCount && k < |b.cvs| && l < b.runCount
    ensures p.apps[i].runs[j].runId == RunIdOf(b, i, j) && p.apps[k].runs[l].runId == RunIdOf(b, k, l)
    ensures RunIdOf(b, i, j) == RunIdOf(b, k, l) ==> i == k && j == l
  {
    assert AppMatches(p.apps[i], b, i, sent, done) && AppMatches(p.apps[k], b, k, sent, done);
    assert RunMatches(p.apps[i].runs[j], RunIdOf(b, i, j), j, sent, done);
    assert RunMatches(p.apps[k].runs[l], RunIdOf(b, k, l), l, sent, done);
    hide RunIdOf;
    if RunIdOf(b, i, j) == RunIdOf(b, k, l) {
      RunPlaceUnique(b, RunIdOf(b, i, j), i, j, k, l);
    }
  }

  // ---- dispatch --------------------------------------------------------------------------------------

  lemma StartTold(b: Batch, t: Time)
    requires b.runCount >= 1 && DistinctApplications(b)
    ensures EachToldOnce(Start(b, t))
  {
    var p := InitialProgress(b, t);
    InitialDescribes(b, t);
    forall i | 0 <= i < |p.apps| ensures AllTold([], p.apps[i]) {
      TerminalFromRuns(p, b, {}, map[], i);
      hide IsApplicationTerminal;
    }
  }

  /** What a dispatch finds and changes. */
  lemma DispatchFacts(p: Snapshot, b: Batch, sent: set<string>, i: nat, j: nat, t: Time)
    requires DistinctApplications(b) && b.runCount >= 1 && Describes(p, b, sent, map[])
    requires i < |b.cvs| && j < b.runCount && RunIdOf(b, i, j) !in sent
    ensures i < |p.apps| && j < |p.apps[i].runs| && p.apps[i].runs[j].runId == RunIdOf(b, i, j)
    ensures p.apps[i].runs[j].dispatchedAt.None? && p.apps[i].runs[j].completedAt.None?
    ensures RecordDispatched(p, RunIdOf(b, i, j), t).apps == p.apps[i := DispatchedApp(p.apps[i], j, t)]
    ensures !IsApplicationTerminal(p.apps[i].runs) && !IsApplicationTerminal(DispatchedApp(p.apps[i], j, t).runs)
  {
    var id := RunIdOf(b, i, j);
    FindsItsPlace(p, b, sent, map[], i, j);
    DispatchStep(p, b, sent, i, j, t);
    assert AppMatches(p.apps[i], b, i, sent, map[]) && RunMatches(p.apps[i].runs[j], id, j, sent, map[]);
    hide CachesAgree, AppMatches, RunMatches, IsApplicationTerminal, RunIdOf, Describes;
    TerminalFromRuns(p, b, sent, map[], i);
    TerminalFromRuns(RecordDispatched(p, id, t), b, sent + {id}, map[], i);
  }

  lemma DispatchTold(s: State, b: Batch, sent: set<string>, i: nat, j: nat, t: Time)
    requires EachToldOnce(s) && DistinctApplications(b) && b.runCount >= 1 && Describes(s.progress, b, sent, map[])
    requires i < |b.cvs| && j < b.runCount && RunIdOf(b, i, j) !in sent
    ensures EachToldOnce(OnDispatched(s, RunIdOf(b, i, j), t))
  {
    hide RecordDispatched, Describes, RunIdOf, AllTold, BuildEvent, DispatchedApp, IsApplicationTerminal;
    var p, id := s.progress, RunIdOf(b, i, j);
    var q := RecordDispatched(p, id, t);
    DispatchFacts(p, b, sent, i, j, t);
    var e := BuildEvent(RunDispatched, q, t, s.sequence + 1, Some(id));
    EventIs(RunDispatched, q, t, s.sequence + 1, Some(id));
    DispatchToldApps(s.log, e, p, b, sent, i, j, t);
    FromApps(OnDispatched(s, id, t), s.log + [e], q.apps);
  }

  lemma DispatchToldApps(log: seq<LiveEvent>, e: LiveEvent, p: Snapshot, b: Batch, sent: set<string>, i: nat, j: nat,
                         t: Time)
    requires forall k :: 0 <= k < |p.apps| ==> AllTold(log, p.apps[k])
    requires DistinctApplications(b) && b.runCount >= 1 && Describes(p, b, sent, map[])
    requires i < |b.cvs| && j < b.runCount && RunIdOf(b, i, j) !in sent
    requires e.kind == RunDispatched && e.runId == Some(RunIdOf(b, i, j))
    ensures i < |p.apps| && j < |p.apps[i].runs|
    ensures var apps := p.apps[i := DispatchedApp(p.apps[i], j, t)];
      forall k :: 0 <= k < |apps| ==> AllTold(log + [e], apps[k])
  {
    hide CachesAgree, AppMatches, RunIdOf, AllTold, IsApplicationTerminal, DispatchedApp, RecordDispatched;
    DispatchFacts(p, b, sent, i, j, t);
    RunsOf(p, b, sent, map[], i);
    forall l | 0 <= l < b.runCount && l != j ensures p.apps[i].runs[l].runId != RunIdOf(b, i, j) {
      RunIdsApart(p, b, sent, map[], i, j, i, l);
    }
    OwnAppDispatched(log, e, p.apps[i], j, t);
    forall k | 0 <= k < |p.apps| && k != i ensures AllTold(log + [e], p.apps[k]) {
      RunsOf(p, b, sent, map[], k);
      forall l | 0 <= l < |p.apps[k].runs| ensures e.runId != Some(p.apps[k].runs[l].runId) {
        RunIdsApart(p, b, sent, map[], i, j, k, l);
      }
      OthersTold(log, e, p.apps[k]);
    }
  }

  lemma EventIs(kind: EventKind, p: Snapshot, t: Time, sequence: int, runId: Option<string>)
    ensures BuildEvent(kind, p, t, sequence, runId).kind == kind
        && BuildEvent(kind, p, t, sequence, runId).runId == runId
  {
  }

  lemma RunsOf(p: Snapshot, b: Batch, sent: set<string>, done: map<string, RunResult>, k: nat)
    requires Fits(p, b, sent, done) && k < |b.cvs|
    ensures |p.apps[k].runs| == b.runCount
  {
    assert AppMatches(p.apps[k], b, k, sent, done);
  }

  lemma OwnAppDispatched(log: seq<LiveEvent>, e: LiveEvent, app: App, j: nat, t: Time)
    requires AllTold(log, app) && j < |app.runs|
    requires !IsApplicationTerminal(app.runs) && !IsApplicationTerminal(DispatchedApp(app, j, t).runs)
    requires app.runs[j].dispatchedAt.None? && app.runs[j].completedAt.None?
    requires e.kind == RunDispatched && e.runId == Some(app.runs[j].runId)
    requires forall l :: 0 <= l < |app.runs| && l != j ==> app.runs[l].runId != app.runs[j].runId
    ensures AllTold(log + [e], DispatchedApp(app, j, t))
  {
    hide Sent, RunTold, IsApplicationTerminal;
    var app' := DispatchedApp(app, j, t);
    SentMore(log, e, ApplicationCompleted, app.runs[0].runId);
    forall l | 0 <= l < |app'.runs| ensures RunTold(log + [e], app'.runs[l]) {
      if l == j {
        DispatchToldOfRun(log, e, app.runs[j], t);
      } else {
        OtherRunTold(log, e, app.runs[l]);
      }
    }
  }

  // ---- results ---------------------------------------------------------------------------------------

  lemma OwnAppReported(log: seq<LiveEvent>, e: LiveEvent, app: App, j: nat, r: RunResult, t: Time)
    requires AllTold(log, app) && j < |app.runs| && !IsApplicationTerminal(app.runs)
    requires app.runs[j].completedAt.None?
    requires e.kind == TerminalRunKind(r.status) && e.runId == Some(app.runs[j].runId)
    requires forall l :: 0 <= l < |app.runs| && l != j ==> app.runs[l].runId != app.runs[j].runId
    ensures var app' := FinishedApp(app, j, r, t);
      && (forall l :: 0 <= l < |app'.runs| ==> RunTold(log + [e], app'.runs[l]))
      && Sent(log + [e], ApplicationCompleted, app'.runs[0].runId) == 0
  {
    RunKindIsNotAnnouncement(r.status);
    hide Sent, RunTold, IsApplicationTerminal, SummarizeApplicationStatus, TerminalRunKind, Names;
    var app' := FinishedApp(app, j, r, t);
    SentMore(log, e, ApplicationCompleted, app.runs[0].runId);
    forall l | 0 <= l < |app'.runs| ensures RunTold(log + [e], app'.runs[l]) {
      if l == j {
        ResultToldOfRun(log, e, app.runs[j], r, t);
      } else {
        OtherRunTold(log, e, app.runs[l]);
      }
    }
  }

  /** The announcement of an application. */
  lemma AppAnnounced(log: seq<LiveEvent>, e: LiveEvent, app: App)
    requires app.runs != [] && e.kind == ApplicationCompleted && e.runId == Some(app.runs[0].runId)
    requires forall l :: 0 <= l < |app.runs| ==> RunTold(log, app.runs[l])
    requires Sent(log, ApplicationCompleted, app.runs[0].runId) == 0 && IsApplicationTerminal(app.runs)
    ensures AllTold(log + [e], app)
  {
    hide Sent, StatusKey, DispatchedBit, IsApplicationTerminal;
    SentMore(log, e, ApplicationCompleted, app.runs[0].runId);
    forall l | 0 <= l < |app.runs| ensures RunTold(log + [e], app.runs[l]) {
      forall kind | kind != ApplicationCompleted
          ensures Sent(log + [e], kind, app.runs[l].runId) == Sent(log, kind, app.runs[l].runId) {
        SentMore(log, e, kind, app.runs[l].runId);
      }
      assert RunTold(log, app.runs[l]);
    }
  }

  /** What a result finds and changes. */
  lemma ResultFacts(p: Snapshot, b: Batch, sent: set<string>, done: map<string, RunResult>, i: nat, j: nat,
                    r: RunResult, t: Time)
    requires DistinctApplications(b) && b.runCount >= 1 && Describes(p, b, sent, done)
    requires i < |b.cvs| && j < b.runCount && r.runId == RunIdOf(b, i, j)
    requires r.runId in sent && r.runId !in done
    ensures i < |p.apps| && j < |p.apps[i].runs| && !IsApplicationTerminal(p.apps[i].runs)
    ensures RecordResult(p, r, t).apps == p.apps[i := FinishedApp(p.apps[i], j, r, t)]
    ensures Describes(RecordResult(p, r, t), b, sent, done[r.runId := r])
  {
    ResultStep(p, b, sent, done, i, j, r, t);
    assert AppMatches(p.apps[i], b, i, sent, done);
    hide Describes, AppMatches, RecordResult, FinishedApp, RunIdOf;
    NotTerminalWith(p.apps[i].runs, j);
  }

  lemma ResultTold(s: State, b: Batch, sent: set<string>, done: map<string, RunResult>, i: nat, j: nat, r: RunResult,
                   t: Time)
    requires Counted(s) && EachToldOnce(s) && DistinctApplications(b) && b.runCount >= 1
        && Describes(s.progress, b, sent, done)
    requires i < |b.cvs| && j < b.runCount && r.runId == RunIdOf(b, i, j)
    requires r.runId in sent && r.runId !in done
    ensures EachToldOnce(OnResult(s, b.cvs[i].applicationId, r, t))
  {
    hide RecordResult, Describes, RunIdOf, BuildEvent, TerminalRunKind, FinishedApp, FindApplication;
    hide IsApplicationTerminal;
    hide TerminalIds, AllTold, RunTold, Sent, Sums.Sum, Announcements, Numbered;
    var p, q, id := s.progress, RecordResult(s.progress, r, t), b.cvs[i].applicationId;
    TerminalAfterResult(p, b, sent, done, i, j, r, t);
    ResultFacts(p, b, sent, done, i, j, r, t);
    assert id !in s.announced;
    var app := q.apps[i];
    var e := BuildEvent(TerminalRunKind(r.status), q, t, s.sequence + 1, Some(r.runId));
    EventIs(TerminalRunKind(r.status), q, t, s.sequence + 1, Some(r.runId));
    ReportedTold(s.log, e, p, b, sent, done, i, j, r, t);
    hide Counted;
    var log := s.log + [e];
    if IsApplicationTerminal(app.runs) {
      var f := BuildEvent(ApplicationCompleted, q, t, s.sequence + 2, FirstRunId(app));
      EventIs(ApplicationCompleted, q, t, s.sequence + 2, FirstRunId(app));
      AnnouncedTold(log, f, q, b, sent, done[r.runId := r], i);
      FromApps(OnResult(s, id, r, t), log + [f], q.apps);
    } else {
      AppSilent(log, app);
      FromApps(OnResult(s, id, r, t), log, q.apps);
    }
  }

  lemma FromApps(s: State, log: seq<LiveEvent>, apps: seq<App>)
    requires s.log == log && s.progress.apps == apps && forall k :: 0 <= k < |apps| ==> AllTold(log, apps[k])
    ensures EachToldOnce(s)
  {
  }

  lemma AppSilent(log: seq<LiveEvent>, app: App)
    requires app.runs != [] && (forall l :: 0 <= l < |app.runs| ==> RunTold(log, app.runs[l]))
    requires Sent(log, ApplicationCompleted, app.runs[0].runId) == 0 && !IsApplicationTerminal(app.runs)
    ensures AllTold(log, app)
  {
    hide Sent, RunTold, IsApplicationTerminal;
  }

  /** After a run's event, and before the announcement if one is due. */
  lemma ReportedTold(log: seq<LiveEvent>, e: LiveEvent, p: Snapshot, b: Batch, sent: set<string>,
                     done: map<string, RunResult>,
                     i: nat, j: nat, r: RunResult, t: Time)
    requires DistinctApplications(b) && b.runCount >= 1 && Describes(p, b, sent, done)
    requires forall k :: 0 <= k < |p.apps| ==> AllTold(log, p.apps[k])
    requires i < |b.cvs| && j < b.runCount && r.runId == RunIdOf(b, i, j) && r.runId !in done
    requires !IsApplicationTerminal(p.apps[i].runs)
    requires e.kind == TerminalRunKind(r.status) && e.runId == Some(r.runId)
    ensures forall k :: 0 <= k < |p.apps| && k != i ==> AllTold(log + [e], p.apps[k])
    ensures j < |p.apps[i].runs|
    ensures var app := FinishedApp(p.apps[i], j, r, t);
      && app.runs != [] && (forall l :: 0 <= l < |app.runs| ==> RunTold(log + [e], app.runs[l]))
      && Sent(log + [e], ApplicationCompleted, app.runs[0].runId) == 0
  {
    assert AppMatches(p.apps[i], b, i, sent, done) && RunMatches(p.apps[i].runs[j], r.runId, j, sent, done);
    hide AllTold, RunTold, Sent, CachesAgree, RunMatches, AppMatches, RunIdOf, TerminalRunKind, IsApplicationTerminal;
    RunsOf(p, b, sent, done, i);
    forall l | 0 <= l < b.runCount && l != j ensures p.apps[i].runs[l].runId != r.runId {
      RunIdsApart(p, b, sent, done, i, j, i, l);
    }
    OwnAppReported(log, e, p.apps[i], j, r, t);
    forall k | 0 <= k < |p.apps| && k != i ensures AllTold(log + [e], p.apps[k]) {
      RunsOf(p, b, sent, done, k);
      forall l | 0 <= l < |p.apps[k].runs| ensures e.runId != Some(p.apps[k].runs[l].runId) {
        RunIdsApart(p, b, sent, done, i, j, k, l);
      }
      OthersTold(log, e, p.apps[k]);
    }
  }

  lemma AnnouncedTold(log: seq<LiveEvent>, f: LiveEvent, q: Snapshot, b: Batch, sent: set<string>,
                      done: map<string, RunResult>, i: nat)
    requires DistinctApplications(b) && b.runCount >= 1 && Describes(q, b, sent, done) && i < |b.cvs|
    requires forall k :: 0 <= k < |q.apps| && k != i ==> AllTold(log, q.apps[k])
    requires q.apps[i].runs != [] && (forall l :: 0 <= l < |q.apps[i].runs| ==> RunTold(log, q.apps[i].runs[l]))
    requires Sent(log, ApplicationCompleted, q.apps[i].runs[0].runId) == 0 && IsApplicationTerminal(q.apps[i].runs)
    requires f.kind == ApplicationCompleted && f.runId == FirstRunId(q.apps[i])
    ensures forall k :: 0 <= k < |q.apps| ==> AllTold(log + [f], q.apps[k])
  {
    hide AllTold, RunTold, Sent, CachesAgree, AppMatches, RunIdOf, IsApplicationTerminal;
    AppAnnounced(log, f, q.apps[i]);
    forall k | 0 <= k < |q.apps| && k != i ensures AllTold(log + [f], q.apps[k]) {
      RunsOf(q, b, sent, done, k);
      forall l | 0 <= l < |q.apps[k].runs| ensures f.runId != Some(q.apps[k].runs[l].runId) {
        RunIdsApart(q, b, sent, done, i, 0, k, l);
      }
      OthersTold(log, f, q.apps[k]);
    }
  }

  // ---- whole runs -------------------------------------------------------------------------------------

  /** One dispatch adds one to the dispatched runs, so the two counters stay in step. */
  lemma {:induction false} DispatchesInStep(b: Batch, t0: Time, t1: Time, k: nat)
    requires b.runCount >= 1 && DistinctApplications(b) && k <= |RunIds(b)|
    ensures var s := DispatchAll(Start(b, t0), RunIds(b)[..k], t1);
      && s.progress == Dispatched(InitialProgress(b, t0), RunIds(b)[..k], t1)
      && s.progress.runsDispatched == k && InStep(s)
  {
    hide Describes, Counted, EachToldOnce, OnDispatched, RecordDispatched, InitialProgress, RunIdsFrom;
    if k == 0 {
      StartCounted(b, t0);
      StartTold(b, t0);
    } else {
      var ids, front, id := RunIds(b)[..k], RunIds(b)[..k - 1], RunIds(b)[k - 1];
      assert ids[..k - 1] == front && ids[k - 1] == id;
      DispatchesInStep(b, t0, t1, k - 1);
      DispatchPhase(b, t0, t1, k - 1);
      FreshRunId(b, k - 1);
      var i: nat, j: nat :| IsRunOf(b, id, i, j);
      DispatchCounted(DispatchAll(Start(b, t0), front, t1), b, IdSet(front), i, j, t1);
      DispatchTold(DispatchAll(Start(b, t0), front, t1), b, IdSet(front), i, j, t1);
    }
  }

  /** The orchestrator at a head of its result loop: the counters are in step, each dispatch,
      result and finished application was told of by its own one event, and the progress
      record is the one that recording the results alone would give. */
  ghost predicate HeadInStep(b: Batch, t0: Time, t1: Time, arrivals: seq<Arrival>)
    requires ValidArrivals(b, arrivals)
  {
    var s := AtLoopHead(b, t0, t1, arrivals);
    && InStep(s)
    && s.progress == StateAfter(b, t0, t1, arrivals)
    && s.progress.runsDispatched == |RunIds(b)|
    && s.progress.runsCompleted == |arrivals|
  }

  lemma FirstHeadInStep(b: Batch, t0: Time, t1: Time)
    requires b.runCount >= 1 && DistinctApplications(b) && ValidArrivals(b, [])
    ensures HeadInStep(b, t0, t1, [])
  {
    hide InStep, RunIdsFrom, RunIdOf, CachesAgree;
    assert RunIds(b)[..|RunIds(b)|] == RunIds(b);
    DispatchesInStep(b, t0, t1, |RunIds(b)|);
    DispatchPhase(b, t0, t1, |RunIds(b)|);
    hide Describes;
    NoneTerminal(StateAfter(b, t0, t1, []), b, IdSet(RunIds(b)));
  }

  /** One turn of the loop. */
  lemma TurnInStep(s: State, b: Batch, sent: set<string>, done: map<string, RunResult>, r: RunResult, t: Time)
    requires InStep(s) && b.runCount >= 1 && DistinctApplications(b) && Describes(s.progress, b, sent, done)
    requires r.runId in RunIds(b) && r.runId in sent && r.runId !in done
    ensures var s' := OnResult(s, OwnerOf(b, r.runId), r, t);
      && InStep(s') && s'.progress == RecordResult(s.progress, r, t)
      && s'.progress.runsDispatched == s.progress.runsDispatched
          && s'.progress.runsCompleted == s.progress.runsCompleted + 1
  {
    hide Describes, OnResult, RecordResult, Counted, EachToldOnce, RunIds, RunIdOf, OwnerOf;
    RunIdsExactly(b);
    var i: nat, j: nat :| IsRunOf(b, r.runId, i, j);
    OwnerOfPlace(b, r.runId, i, j);
    ResultTold(s, b, sent, done, i, j, r, t);
    ResultCounted(s, b, sent, done, i, j, r, t);
  }

  lemma {:induction false} LoopHeadsInStep(b: Batch, t0: Time, t1: Time, arrivals: seq<Arrival>)
    requires b.runCount >= 1 && DistinctApplications(b) && ValidArrivals(b, arrivals)
    ensures HeadInStep(b, t0, t1, arrivals)
  {
    if arrivals == [] {
      FirstHeadInStep(b, t0, t1);
    } else {
      hide Describes, OnResult, RecordResult, InStep, RunIds, OwnerOf, Dispatched, DispatchAll;
      var front, last := arrivals[..|arrivals| - 1], arrivals[|arrivals| - 1];
      LoopHeadsInStep(b, t0, t1, front);
      ResultPhase(b, t0, t1, front);
      ResultsOfMembers(front);
      TurnInStep(AtLoopHead(b, t0, t1, front), b, IdSet(RunIds(b)), ResultsOf(front), last.result, last.at);
    }
  }

  lemma LastEventTold(s: State, t: Time)
    requires EachToldOnce(s)
    ensures EachToldOnce(OnFinished(s, t)) && OnFinished(s, t).progress.apps == s.progress.apps
  {
    hide AllTold, IsCancelledBatch;
    var log := OnFinished(s, t).log;
    forall i | 0 <= i < |s.progress.apps| ensures AllTold(log, s.progress.apps[i]) {
      OthersTold(s.log, log[|s.log|], s.progress.apps[i]);
    }
  }

  /** The record's own run tells which events were sent for a result. */
  lemma ReportedTwice(b: Batch, t0: Time, t1: Time, arrivals: seq<Arrival>, s: State, k: nat)
    requires b.runCount >= 1 && DistinctApplications(b) && ValidArrivals(b, arrivals) && k < |arrivals|
    requires EachToldOnce(s) && s.progress.apps == StateAfter(b, t0, t1, arrivals).apps
    ensures TwiceTold(s.log, arrivals[k].result)
  {
    var p, r := StateAfter(b, t0, t1, arrivals), arrivals[k].result;
    ResultPhase(b, t0, t1, arrivals);
    ResultIs(b, arrivals, k);
    RunIdsExactly(b);
    hide StateAfter, RunIds, ResultsOf, CachesAgree, RunIdOf, EndTold, StatusKey;
    var i: nat, j: nat :| IsRunOf(b, r.runId, i, j);
    assert AppMatches(p.apps[i], b, i, IdSet(RunIds(b)), ResultsOf(arrivals));
    assert RunMatches(p.apps[i].runs[j], r.runId, j, IdSet(RunIds(b)), ResultsOf(arrivals));
    assert AllTold(s.log, p.apps[i]) && RunTold(s.log, p.apps[i].runs[j]);
  }

  /** The results by run id hold each arrival's own result. */
  lemma ResultIs(b: Batch, arrivals: seq<Arrival>, k: nat)
    requires ValidArrivals(b, arrivals) && k < |arrivals|
    ensures var r := arrivals[k].result; r.runId in ResultsOf(arrivals) && ResultsOf(arrivals)[r.runId] == r
  {
    ResultsOfMembers(arrivals);
    var id := arrivals[k].result.runId;
    var l :| 0 <= l < |arrivals| && arrivals[l].result == ResultsOf(arrivals)[id] && arrivals[l].result.runId == id;
    assert l == k;
  }

  ghost predicate ReportedCancelled(r: RunResult) {
    StatusKey(r.status) in {"cancelled", "canceled"}
  }

  lemma Verdict(b: Batch, t0: Time, t1: Time, arrivals: seq<Arrival>)
    requires b.runCount >= 1 && DistinctApplications(b) && ValidArrivals(b, arrivals)
    requires |arrivals| == |RunIds(b)|
    ensures IsCancelledBatch(StateAfter(b, t0, t1, arrivals).apps) <==>
      b.cvs != [] && forall k :: 0 <= k < |arrivals| ==> ReportedCancelled(arrivals[k].result)
  {
    var p, done := StateAfter(b, t0, t1, arrivals), ResultsOf(arrivals);
    ResultPhase(b, t0, t1, arrivals);
    ResultsOfMembers(arrivals);
    if b.cvs != [] {
      AllArrived(b, arrivals);
      VerdictFromRuns(p, b, IdSet(RunIds(b)), done);
      hide StatusKey, RunIds, IsCancelledBatch, Collected;
      forall k | 0 <= k < |arrivals| ensures done[arrivals[k].result.runId] == arrivals[k].result {
        ResultIs(b, arrivals, k);
      }
      assert forall id :: id in RunIds(b) ==> exists k :: 0 <= k < |arrivals| && arrivals[k].result.runId == id;
      forall id | id in RunIds(b) ensures exists k :: 0 <= k < |arrivals| && done[id] == arrivals[k].result {
        var k :| 0 <= k < |arrivals| && arrivals[k].result.runId == id;
        assert done[id] == arrivals[k].result;
      }
    }
  }

  /** A run that was dispatched and reported: one event for each. */
  ghost predicate TwiceTold(log: seq<LiveEvent>, r: RunResult) {
    Sent(log, RunDispatched, r.runId) == 1 && EndTold(log, r.runId, true, r.status)
  }

  /** The log has one event that tells each run of the batch was cancelled. */
  ghost predicate EachCancelled(log: seq<LiveEvent>, b: Batch) {
    forall id :: id in RunIds(b) ==> Sent(log, RunCancelled, id) == 1
  }

  /** The events tell of cancelled runs what the results did. */
  lemma CancelledAsTold(b: Batch, arrivals: seq<Arrival>, log: seq<LiveEvent>)
    requires DistinctApplications(b) && ValidArrivals(b, arrivals) && |arrivals| == |RunIds(b)|
    requires forall k :: 0 <= k < |arrivals| ==> TwiceTold(log, arrivals[k].result)
    ensures EachCancelled(log, b) <==> forall k :: 0 <= k < |arrivals| ==> ReportedCancelled(arrivals[k].result)
  {
    AllArrived(b, arrivals);
    ResultsOfMembers(arrivals);
    hide RunIds, ResultsOf, Sent, StatusKey;
    forall k | 0 <= k < |arrivals|
      ensures Sent(log, RunCancelled, arrivals[k].result.runId) == 1 <==> ReportedCancelled(arrivals[k].result)
    {
      assert TwiceTold(log, arrivals[k].result);
    }
    forall id | id in RunIds(b) ensures exists k :: 0 <= k < |arrivals| && arrivals[k].result.runId == id {
      assert id in ResultsOf(arrivals);
    }
  }

  /** A finished batch has sent two events per run, one per application all of whose runs
      ended terminal, and one for the batch, numbered without gaps; the last one tells a
      cancelled batch from a completed one, and calls a batch cancelled exactly when it was
      preceded by a cancellation of every run. */
  lemma FinishedBatch(b: Batch, t0: Time, t1: Time, arrivals: seq<Arrival>, t: Time)
    requires b.runCount >= 1 && DistinctApplications(b) && ValidArrivals(b, arrivals)
    requires |arrivals| == |RunIds(b)|
    ensures var s := OnFinished(AtLoopHead(b, t0, t1, arrivals), t);
      && Numbered(s)
      && |s.log| == 2 * (|b.cvs| * b.runCount) + Sum(s.progress.apps, TerminalBit) + 1
      && Announcements(s.log) == Sum(s.progress.apps, TerminalBit) == s.progress.cvsCompleted
      && s.log[|s.log| - 1].kind == (if s.progress.status == "cancelled" then BatchCancelled else BatchCompleted)
      && s.progress.status in {"cancelled", "completed"}
      && (s.progress.status == "cancelled" <==>
           b.cvs != [] && forall k :: 0 <= k < |arrivals| ==> ReportedCancelled(arrivals[k].result))
      && (s.log[|s.log| - 1].kind == BatchCancelled <==> b.cvs != [] && EachCancelled(s.log, b))
      && EachToldOnce(s)
      && (forall k :: 0 <= k < |arrivals| ==> TwiceTold(s.log, arrivals[k].result))
  {
    hide AtLoopHead, StateAfter, Announcements, RunIdsFrom, TerminalIds, Sum, IsCancelledBatch;
    hide ReportedCancelled, ResultsOf, EachCancelled;
    hide AppMatches, AppCachesAgree, EachToldOnce, TwiceTold;
    var head := AtLoopHead(b, t0, t1, arrivals);
    LoopHeadsInStep(b, t0, t1, arrivals);
    ResultPhase(b, t0, t1, arrivals);
    RunIdsExactly(b);
    DistinctAppIds(head.progress, b, IdSet(RunIds(b)), ResultsOf(arrivals));
    TerminalCount(head.progress.apps);
    Verdict(b, t0, t1, arrivals);
    hide Describes;
    LastEventTold(head, t);
    forall k | 0 <= k < |arrivals| ensures TwiceTold(OnFinished(head, t).log, arrivals[k].result) {
      ReportedTwice(b, t0, t1, arrivals, OnFinished(head, t), k);
    }
    CancelledAsTold(b, arrivals, OnFinished(head, t).log);
    EmitKeepsNumbers(head.(progress := FinalProgress(head.progress, t)),
                     if IsCancelledBatch(head.progress.apps) then BatchCancelled else BatchCompleted, t, None);
  }
}
