/** The states the orchestrator drives the progress record through. */
module Reachability {
  import opened Options
  import opened Text
  import opened Sums
  import opened Contracts
  import opened Progress

  /** One result event, at the time the orchestrator takes it up. */
  datatype Arrival = Arrival(result: RunResult, at: Time)

  /** Dispatches recorded in order, all at one time. */
  function Dispatched(p: Snapshot, ids: seq<string>, t: Time): Snapshot {
    if ids == [] then p else RecordDispatched(Dispatched(p, ids[..|ids| - 1], t), ids[|ids| - 1], t)
  }

  /** Results recorded in the order they arrived. */
  function Collected(p: Snapshot, arrivals: seq<Arrival>): Snapshot {
    if arrivals == [] then p
    else
      var last := arrivals[|arrivals| - 1];
      RecordResult(Collected(p, arrivals[..|arrivals| - 1]), last.result, last.at)
  }

  /** The record after every run was dispatched and the given results came in. */
  function StateAfter(b: Batch, t0: Time, t1: Time, arrivals: seq<Arrival>): Snapshot {
    Collected(Dispatched(InitialProgress(b, t0), RunIds(b), t1), arrivals)
  }

  /** Each run of the batch is heard from at most once; the delivery protocol sees to that. */
  ghost predicate ValidArrivals(b: Batch, arrivals: seq<Arrival>) {
    && (forall k :: 0 <= k < |arrivals| ==> arrivals[k].result.runId in RunIds(b))
    && (forall k, l :: 0 <= k < l < |arrivals| ==> arrivals[k].result.runId != arrivals[l].result.runId)
  }

  function ResultsOf(arrivals: seq<Arrival>): map<string, RunResult> {
    if arrivals == [] then map[]
    else
      var last := arrivals[|arrivals| - 1].result;
      ResultsOf(arrivals[..|arrivals| - 1])[last.runId := last]
  }

  function IdSet(ids: seq<string>): set<string> {
    set id | id in ids
  }

  // ---- what the record looks like, whatever the order ------------------------------------------

  function ExpectedRun(id: string, j: nat, sentAt: Option<Time>, done: map<string, RunResult>,
                       doneAt: Option<Time>): Run {
    var queued := QueuedRun(id, j);
    var sent := if sentAt.Some? then DispatchedRun(queued, sentAt.value) else queued;
    if id in done && doneAt.Some? then FinishedRun(sent, done[id], doneAt.value) else sent
  }

  ghost predicate RunMatches(run: Run, id: string, j: nat, sent: set<string>, done: map<string, RunResult>) {
    && (run.dispatchedAt.Some? <==> id in sent)
    && (run.completedAt.Some? <==> id in done)
    && run == ExpectedRun(id, j, run.dispatchedAt, done, run.completedAt)
  }

  ghost predicate AppMatches(app: App, b: Batch, i: nat, sent: set<string>, done: map<string, RunResult>)
    requires i < |b.cvs|
  {
    && app.applicationId == b.cvs[i].applicationId
    && app.documentId == b.cvs[i].documentId
    && app.runsTotal == b.runCount == |app.runs|
    && forall j :: 0 <= j < b.runCount ==> RunMatches(app.runs[j], RunIdOf(b, i, j), j, sent, done)
  }

  ghost predicate Fits(p: Snapshot, b: Batch, sent: set<string>, done: map<string, RunResult>) {
    && p.batchId == b.batchId && p.jobId == b.jobId
    && p.cvsTotal == |b.cvs| && p.runsTotal == |b.cvs| * b.runCount
    && |p.apps| == |b.cvs|
    && p.status == (if sent == {} then "queued" else "running")
    && forall i :: 0 <= i < |b.cvs| ==> AppMatches(p.apps[i], b, i, sent, done)
  }

  /** The record of a batch of which the runs in `sent` were dispatched and those in `done`
      reported: every run is what its own result made it, every cache is a recount. */
  ghost predicate Describes(p: Snapshot, b: Batch, sent: set<string>, done: map<string, RunResult>) {
    Fits(p, b, sent, done) && CachesAgree(p)
  }

  lemma {:induction false} SumZero<T>(s: seq<T>, f: T -> int)
    requires forall i :: 0 <= i < |s| ==> f(s[i]) == 0
    ensures Sum(s, f) == 0
  {
    if s != [] {
      SumZero(s[1..], f);
    }
  }

  lemma InitialAppDescribes(b: Batch, i: nat, t: Time)
    requires b.runCount >= 1 && i < |b.cvs|
    ensures var app := InitialApp(b, i, t);
      && AppMatches(app, b, i, {}, map[]) && AppCachesAgree(app) && !IsApplicationTerminal(app.runs)
      && CompletedRuns(app) == 0 && DispatchedRuns(app) == 0
  {
    hide StatusKey, RunIdOf, Sum;
    KnownKeys();
    var app := InitialApp(b, i, t);
    assert forall j :: 0 <= j < b.runCount ==> Keys(app.runs)[j] == "queued";
    SumZero(app.runs, CompletedBit);
    SumZero(app.runs, DispatchedBit);
    assert Keys(app.runs)[0] == "queued" && !IsTerminalStatus(app.runs[0].status);
  }

  /** A batch has at least one run per application (`runCount >= 1` in its schema). */
  lemma InitialDescribes(b: Batch, t: Time)
    requires b.runCount >= 1
    ensures Describes(InitialProgress(b, t), b, {}, map[])
  {
    hide AppMatches, AppCachesAgree, InitialApp, IsApplicationTerminal, CompletedRuns, DispatchedRuns;
    var p := InitialProgress(b, t);
    forall i | 0 <= i < |b.cvs|
      ensures AppMatches(p.apps[i], b, i, {}, map[]) && AppCachesAgree(p.apps[i])
      ensures !IsApplicationTerminal(p.apps[i].runs)
      ensures CompletedRuns(p.apps[i]) == 0 && DispatchedRuns(p.apps[i]) == 0
    {
      InitialAppDescribes(b, i, t);
    }
    SumZero(p.apps, CompletedRuns);
    SumZero(p.apps, DispatchedRuns);
    assert TerminalIds(p.apps) == {};
  }

  /** The search stops at the run's own place. */
  lemma FindsItsPlace(p: Snapshot, b: Batch, sent: set<string>, done: map<string, RunResult>, i: nat, j: nat)
    requires DistinctApplications(b) && Fits(p, b, sent, done) && i < |b.cvs| && j < b.runCount
    ensures FindRun(p, RunIdOf(b, i, j)) == Some(Place(i, j))
  {
    var id := RunIdOf(b, i, j);
    assert AppMatches(p.apps[i], b, i, sent, done);
    assert RunMatches(p.apps[i].runs[j], id, j, sent, done);
    assert HasRun(p.apps[i], id);
    assert FindRun(p, id).Some?;
    var Place(k, l) := FindRun(p, id).value;
    assert AppMatches(p.apps[k], b, k, sent, done);
    assert RunMatches(p.apps[k].runs[l], RunIdOf(b, k, l), l, sent, done);
    assert IsRunOf(b, id, i, j) && IsRunOf(b, id, k, l);
    RunPlaceUnique(b, id, i, j, k, l);
  }

  lemma OtherRunsKeep(b: Batch, app: App, i: nat, j: nat, run: Run, app': App,
                      sent: set<string>, done: map<string, RunResult>,
                      sent': set<string>, done': map<string, RunResult>)
    requires DistinctApplications(b) && i < |b.cvs| && j < b.runCount
    requires AppMatches(app, b, i, sent, done)
    requires app' == app.(runs := app.runs[j := run], status := app'.status, runsCompleted := app'.runsCompleted,
        lastUpdatedAt := app'.lastUpdatedAt)
    requires RunMatches(run, RunIdOf(b, i, j), j, sent', done')
    requires forall id :: id != RunIdOf(b, i, j) ==> (id in sent <==> id in sent') && (id in done <==> id in done')
    requires forall id :: id in done ==> id in done' && (id != RunIdOf(b, i, j) ==> done[id] == done'[id])
    ensures AppMatches(app', b, i, sent', done')
  {
    forall l | 0 <= l < b.runCount ensures RunMatches(app'.runs[l], RunIdOf(b, i, l), l, sent', done') {
      if l != j {
        if RunIdOf(b, i, l) == RunIdOf(b, i, j) {
          RunPlaceUnique(b, RunIdOf(b, i, l), i, l, i, j);
        }
        assert RunMatches(app.runs[l], RunIdOf(b, i, l), l, sent, done);
      }
    }
  }

  lemma OtherAppKeeps(b: Batch, app: App, k: nat, i: nat, j: nat,
                      sent: set<string>, done: map<string, RunResult>,
                      sent': set<string>, done': map<string, RunResult>)
    requires DistinctApplications(b) && i < |b.cvs| && j < b.runCount && k < |b.cvs| && k != i
    requires AppMatches(app, b, k, sent, done)
    requires forall id :: id != RunIdOf(b, i, j) ==> (id in sent <==> id in sent') && (id in done <==> id in done')
    requires forall id :: id in done ==> id in done' && (id != RunIdOf(b, i, j) ==> done[id] == done'[id])
    ensures AppMatches(app, b, k, sent', done')
  {
    forall l | 0 <= l < b.runCount ensures RunMatches(app.runs[l], RunIdOf(b, k, l), l, sent', done') {
      if RunIdOf(b, k, l) == RunIdOf(b, i, j) {
        RunPlaceUnique(b, RunIdOf(b, k, l), k, l, i, j);
      }
      assert RunMatches(app.runs[l], RunIdOf(b, k, l), l, sent, done);
    }
  }

  lemma StatusesOf(run: Run, id: string, j: nat, sent: set<string>, done: map<string, RunResult>)
    requires RunMatches(run, id, j, sent, done)
    ensures run.runId == id && run.runIndex == j
    ensures id in done ==> run.status == done[id].status
    ensures id !in done ==> run.status == (if id in sent then "dispatched" else "queued")
    ensures id !in done ==> !IsTerminalStatus(run.status)
  {
    KnownKeys();
  }

  lemma DispatchStep(p: Snapshot, b: Batch, sent: set<string>, i: nat, j: nat, t: Time)
    requires DistinctApplications(b) && Describes(p, b, sent, map[])
    requires i < |b.cvs| && j < b.runCount && RunIdOf(b, i, j) !in sent
    ensures Describes(RecordDispatched(p, RunIdOf(b, i, j), t), b, sent + {RunIdOf(b, i, j)}, map[])
  {
    var id := RunIdOf(b, i, j);
    var q, sent' := RecordDispatched(p, id, t), sent + {id};
    FindsItsPlace(p, b, sent, map[], i, j);
    var app := p.apps[i];
    assert AppMatches(app, b, i, sent, map[]);
    assert RunMatches(app.runs[j], id, j, sent, map[]);
    StatusesOf(app.runs[j], id, j, sent, map[]);
    NotTerminalWith(app.runs, j);
    DispatchKeepsCaches(p, id, t);
    OtherRunsKeep(b, app, i, j, DispatchedRun(app.runs[j], t), q.apps[i], sent, map[], sent', map[]);
    forall k | 0 <= k < |b.cvs| ensures AppMatches(q.apps[k], b, k, sent', map[]) {
      if k != i {
        OtherAppKeeps(b, p.apps[k], k, i, j, sent, map[], sent', map[]);
      }
    }
  }

  lemma ResultStep(p: Snapshot, b: Batch, sent: set<string>, done: map<string, RunResult>, i: nat, j: nat,
                   r: RunResult, t: Time)
    requires DistinctApplications(b) && Describes(p, b, sent, done)
    requires i < |b.cvs| && j < b.runCount && r.runId == RunIdOf(b, i, j)
    requires r.runId in sent && r.runId !in done
    ensures Describes(RecordResult(p, r, t), b, sent, done[r.runId := r])
    ensures RecordResult(p, r, t).apps == p.apps[i := FinishedApp(p.apps[i], j, r, t)]
    ensures !IsTerminalStatus(p.apps[i].runs[j].status)
  {
    var q, done' := RecordResult(p, r, t), done[r.runId := r];
    FindsItsPlace(p, b, sent, done, i, j);
    var app := p.apps[i];
    assert AppMatches(app, b, i, sent, done);
    assert RunMatches(app.runs[j], r.runId, j, sent, done);
    StatusesOf(app.runs[j], r.runId, j, sent, done);
    ResultKeepsCaches(p, r, t);
    OtherRunsKeep(b, app, i, j, FinishedRun(app.runs[j], r, t), q.apps[i], sent, done, sent, done');
    forall k | 0 <= k < |b.cvs| ensures AppMatches(q.apps[k], b, k, sent, done') {
      if k != i {
        OtherAppKeeps(b, p.apps[k], k, i, j, sent, done, sent, done');
      }
    }
  }

  // ---- every reachable state -------------------------------------------------------------------

  /** After the first k dispatches. */
  lemma {:induction false} DispatchPhase(b: Batch, t0: Time, t1: Time, k: nat)
    requires b.runCount >= 1 && DistinctApplications(b) && k <= |RunIds(b)|
    ensures Describes(Dispatched(InitialProgress(b, t0), RunIds(b)[..k], t1), b, IdSet(RunIds(b)[..k]), map[])
  {
    hide Describes, RecordDispatched, InitialProgress, RunIdsFrom, RunIdOf;
    var ids := RunIds(b)[..k];
    if k == 0 {
      InitialDescribes(b, t0);
      assert IdSet(ids) == {};
    } else {
      DispatchPhase(b, t0, t1, k - 1);
      RunIdsDistinct(b);
      RunIdsExactly(b);
      var id := ids[k - 1];
      assert ids[..k - 1] == RunIds(b)[..k - 1];
      assert id in RunIds(b);
      var i: nat, j: nat :| IsRunOf(b, id, i, j);
      assert IdSet(ids) == IdSet(ids[..k - 1]) + {id};
      DispatchStep(Dispatched(InitialProgress(b, t0), ids[..k - 1], t1), b, IdSet(ids[..k - 1]), i, j, t1);
    }
  }

  lemma {:induction false} ResultsOfMembers(arrivals: seq<Arrival>)
    ensures forall id :: id in ResultsOf(arrivals) <==>
        exists k :: 0 <= k < |arrivals| && arrivals[k].result.runId == id
    ensures forall id :: id in ResultsOf(arrivals) ==>
      exists k :: 0 <= k < |arrivals| && arrivals[k].result == ResultsOf(arrivals)[id] && arrivals[k].result.runId == id
  {
    if arrivals != [] {
      var front := arrivals[..|arrivals| - 1];
      ResultsOfMembers(front);
      assert forall k :: 0 <= k < |front| ==> front[k] == arrivals[k];
      forall id | id in ResultsOf(arrivals)
        ensures exists k ::
          0 <= k < |arrivals| && arrivals[k].result == ResultsOf(arrivals)[id] && arrivals[k].result.runId == id
      {
        if id == arrivals[|arrivals| - 1].result.runId {
          assert arrivals[|arrivals| - 1].result == ResultsOf(arrivals)[id];
        } else {
          var k :| 0 <= k < |front| && front[k].result == ResultsOf(front)[id] && front[k].result.runId == id;
          assert arrivals[k].result == ResultsOf(arrivals)[id];
        }
      }
    }
  }

  /** After every dispatch and any results, in any order, at most one per run. */
  lemma {:induction false} ResultPhase(b: Batch, t0: Time, t1: Time, arrivals: seq<Arrival>)
    requires b.runCount >= 1 && DistinctApplications(b) && ValidArrivals(b, arrivals)
    ensures Describes(StateAfter(b, t0, t1, arrivals), b, IdSet(RunIds(b)), ResultsOf(arrivals))
  {
    hide Describes, RecordResult, RunIdsFrom;
    if arrivals == [] {
      assert RunIds(b)[..|RunIds(b)|] == RunIds(b);
      DispatchPhase(b, t0, t1, |RunIds(b)|);
    } else {
      var front, last := arrivals[..|arrivals| - 1], arrivals[|arrivals| - 1];
      ResultPhase(b, t0, t1, front);
      ResultsOfMembers(front);
      RunIdsExactly(b);
      var i: nat, j: nat :| IsRunOf(b, last.result.runId, i, j);
      ResultStep(StateAfter(b, t0, t1, front), b, IdSet(RunIds(b)), ResultsOf(front), i, j, last.result, last.at);
    }
  }
}
