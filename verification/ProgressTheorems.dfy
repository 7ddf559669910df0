/** What holds of the progress record in every reachable state. */
module ProgressTheorems {
  import opened Options
  import opened Text
  import opened Sums
  import opened Contracts
  import opened Progress
  import opened Reachability

  // ---- counters ---------------------------------------------------------------------------------

  lemma {:induction false} SumAtMost<T>(s: seq<T>, f: T -> int, c: nat)
    requires forall i :: 0 <= i < |s| ==> 0 <= f(s[i]) <= c
    ensures 0 <= Sum(s, f) <= |s| * c
  {
    if s != [] {
      SumAtMost(s[1..], f, c);
      assert |s| * c == |s[1..]| * c + c;
    }
  }

  lemma {:induction false} SumAdds<T>(s: seq<T>, f: T -> int, g: T -> int, h: T -> int)
    requires forall i :: 0 <= i < |s| ==> f(s[i]) == g(s[i]) + h(s[i])
    ensures Sum(s, f) == Sum(s, g) + Sum(s, h)
  {
    if s != [] {
      SumAdds(s[1..], f, g, h);
    }
  }

  lemma {:induction false} SumVanishes<T>(s: seq<T>, f: T -> int)
    requires forall i :: 0 <= i < |s| ==> f(s[i]) >= 0
    ensures Sum(s, f) >= 0
    ensures Sum(s, f) == 0 <==> forall i :: 0 <= i < |s| ==> f(s[i]) == 0
  {
    if s != [] {
      SumVanishes(s[1..], f);
      assert forall i :: 0 < i < |s| ==> s[i] == s[1..][i - 1];
      assert forall i :: 0 <= i < |s| - 1 ==> s[1..][i] == s[i + 1];
    }
  }

  lemma AppCounts(app: App, b: Batch, i: nat, sent: set<string>, done: map<string, RunResult>)
    requires i < |b.cvs| && AppMatches(app, b, i, sent, done) && done.Keys <= sent
    ensures 0 <= CompletedRuns(app) <= DispatchedRuns(app) <= b.runCount
    ensures DispatchedRuns(app) == NonQueuedRuns(app) + RequeuedRuns(app)
    ensures RequeuedRuns(app) >= 0
    ensures RequeuedRuns(app) == 0 <==> NeverRequeued(b, i, done)
  {
    hide RunIdOf, IsTerminalStatus, Sum;
    forall j | 0 <= j < b.runCount
      ensures 0 <= CompletedBit(app.runs[j]) <= DispatchedBit(app.runs[j]) <= 1
      ensures DispatchedBit(app.runs[j]) == NonQueuedBit(app.runs[j]) + RequeuedBit(app.runs[j])
      ensures RequeuedBit(app.runs[j]) == 0 <==>
        (RunIdOf(b, i, j) in done ==> done[RunIdOf(b, i, j)].status != "queued")
    {
      var id := RunIdOf(b, i, j);
      assert RunMatches(app.runs[j], id, j, sent, done);
      StatusesOf(app.runs[j], id, j, sent, done);
    }
    SumDominated(app.runs, CompletedBit, DispatchedBit);
    SumOfBits(app.runs, CompletedBit);
    SumOfBits(app.runs, DispatchedBit);
    SumAdds(app.runs, DispatchedBit, NonQueuedBit, RequeuedBit);
    SumVanishes(app.runs, RequeuedBit);
  }

  lemma {:induction false} TerminalCountTo(apps: seq<App>, n: nat)
    requires n <= |apps|
    requires forall i, j :: 0 <= i < j < |apps| ==> apps[i].applicationId != apps[j].applicationId
    ensures |TerminalIds(apps[..n])| == Sum(apps[..n], TerminalBit)
  {
    if n == 0 {
      assert TerminalIds(apps[..0]) == {};
    } else {
      hide IsApplicationTerminal;
      TerminalCountTo(apps, n - 1);
      OneMoreTerminal(apps, n - 1);
      assert apps[..n] == apps[..n - 1] + [apps[n - 1]] && [apps[n - 1]][1..] == [];
      SumAppend(apps[..n - 1], [apps[n - 1]], TerminalBit);
      assert apps[n - 1].applicationId !in TerminalIds(apps[..n - 1]);
    }
  }

  /** No application id occurs twice, so counting terminal applications and counting their
      ids is the same. */
  lemma TerminalCount(apps: seq<App>)
    requires forall i, j :: 0 <= i < j < |apps| ==> apps[i].applicationId != apps[j].applicationId
    ensures |TerminalIds(apps)| == Sum(apps, TerminalBit)
  {
    TerminalCountTo(apps, |apps|);
    assert apps[..|apps|] == apps;
  }

  lemma DistinctAppIds(p: Snapshot, b: Batch, sent: set<string>, done: map<string, RunResult>)
    requires DistinctApplications(b) && Fits(p, b, sent, done)
    ensures forall i, j :: 0 <= i < j < |p.apps| ==> p.apps[i].applicationId != p.apps[j].applicationId
  {
    forall i, j | 0 <= i < j < |p.apps| ensures p.apps[i].applicationId != p.apps[j].applicationId {
      assert AppMatches(p.apps[i], b, i, sent, done) && AppMatches(p.apps[j], b, j, sent, done);
    }
  }

  /** An application has ended exactly when every one of its runs reported a terminal status. */
  lemma TerminalFromRuns(p: Snapshot, b: Batch, sent: set<string>, done: map<string, RunResult>, i: nat)
    requires Describes(p, b, sent, done) && i < |b.cvs|
    ensures IsApplicationTerminal(p.apps[i].runs) <==>
      forall j :: 0 <= j < b.runCount ==> RunIdOf(b, i, j) in done && IsTerminalStatus(done[RunIdOf(b, i, j)].status)
  {
    hide IsTerminalStatus, CachesAgree, RunIdOf;
    assert AppMatches(p.apps[i], b, i, sent, done);
    forall j | 0 <= j < b.runCount
      ensures IsTerminalStatus(p.apps[i].runs[j].status) <==>
        RunIdOf(b, i, j) in done && IsTerminalStatus(done[RunIdOf(b, i, j)].status)
    {
      StatusesOf(p.apps[i].runs[j], RunIdOf(b, i, j), j, sent, done);
    }
  }

  lemma PartialIsNotTerminal()
    ensures !IsTerminalStatus("Partial")
  {
    WordKey("Partial");
    assert Lower("Partial") == "partial";
    hide StatusKey, Lower;
  }

  /** The engine may report `Partial`. Such a run counts as completed, and its application
      never ends. */
  lemma PartialCountsButNeverEnds(p: Snapshot, b: Batch, sent: set<string>, done: map<string, RunResult>, i: nat,
                                  j: nat)
    requires Describes(p, b, sent, done) && i < |b.cvs| && j < b.runCount
    requires RunIdOf(b, i, j) in done && done[RunIdOf(b, i, j)].status == "Partial"
    ensures CompletedBit(p.apps[i].runs[j]) == 1 && !IsApplicationTerminal(p.apps[i].runs)
  {
    PartialIsNotTerminal();
    TerminalFromRuns(p, b, sent, done, i);
    hide IsTerminalStatus, CachesAgree, RunIdOf;
    assert AppMatches(p.apps[i], b, i, sent, done);
    assert RunMatches(p.apps[i].runs[j], RunIdOf(b, i, j), j, sent, done);
  }

  /** What the counters are made of, application by application. */
  ghost predicate AppCounted(app: App, b: Batch, i: nat, done: map<string, RunResult>)
    requires i < |b.cvs|
  {
    && 0 <= CompletedRuns(app) <= DispatchedRuns(app) <= b.runCount
    && DispatchedRuns(app) == NonQueuedRuns(app) + RequeuedRuns(app)
    && RequeuedRuns(app) >= 0
    && CachedCompleted(app) == CompletedRuns(app)
    && (RequeuedRuns(app) == 0 <==> NeverRequeued(b, i, done))
  }

  ghost predicate NeverRequeued(b: Batch, i: nat, done: map<string, RunResult>)
    requires i < |b.cvs|
  {
    forall j :: 0 <= j < b.runCount && RunIdOf(b, i, j) in done ==> done[RunIdOf(b, i, j)].status != "queued"
  }

  /** The cached counters are what a reader expects of them: completed runs are at most the
      dispatched ones and those at most all; the completed CVs are the applications whose
      runs all ended; and the dispatched runs are the runs not marked `queued`, precisely as
      long as no engine reported the status `queued` itself. */
  lemma CountersMean(p: Snapshot, b: Batch, sent: set<string>, done: map<string, RunResult>)
    requires DistinctApplications(b) && Describes(p, b, sent, done) && done.Keys <= sent
    ensures 0 <= p.runsCompleted <= p.runsDispatched <= p.runsTotal
    ensures p.runsCompleted == Sum(p.apps, CachedCompleted) == Sum(p.apps, CompletedRuns)
    ensures p.cvsCompleted == Sum(p.apps, TerminalBit)
    ensures p.runsDispatched == Sum(p.apps, NonQueuedRuns) <==>
      forall i :: 0 <= i < |b.cvs| ==> NeverRequeued(b, i, done)
  {
    DistinctAppIds(p, b, sent, done);
    TerminalCount(p.apps);
    forall i | 0 <= i < |p.apps| ensures AppCounted(p.apps[i], b, i, done) {
      AppCounts(p.apps[i], b, i, sent, done);
    }
    CountsAddUp(p.apps, b, done);
  }

  lemma CountsAddUp(apps: seq<App>, b: Batch, done: map<string, RunResult>)
    requires |apps| == |b.cvs| && forall i :: 0 <= i < |apps| ==> AppCounted(apps[i], b, i, done)
    ensures 0 <= Sum(apps, CompletedRuns) <= Sum(apps, DispatchedRuns) <= |apps| * b.runCount
    ensures Sum(apps, CachedCompleted) == Sum(apps, CompletedRuns)
    ensures Sum(apps, DispatchedRuns) == Sum(apps, NonQueuedRuns) <==>
      forall i :: 0 <= i < |b.cvs| ==> NeverRequeued(b, i, done)
  {
    hide CompletedRuns, DispatchedRuns, NonQueuedRuns, RequeuedRuns, Sum, NeverRequeued;
    SumDominated(apps, CompletedRuns, DispatchedRuns);
    SumVanishes(apps, CompletedRuns);
    SumAtMost(apps, DispatchedRuns, b.runCount);
    SumAdds(apps, DispatchedRuns, NonQueuedRuns, RequeuedRuns);
    SumVanishes(apps, RequeuedRuns);
    assert forall i :: 0 <= i < |apps| ==> (RequeuedRuns(apps[i]) == 0 <==> NeverRequeued(b, i, done));
    SumSame(apps, CachedCompleted, CompletedRuns);
  }

  lemma {:induction false} SumSame<T>(s: seq<T>, f: T -> int, g: T -> int)
    requires forall i :: 0 <= i < |s| ==> f(s[i]) == g(s[i])
    ensures Sum(s, f) == Sum(s, g)
  {
    if s != [] {
      SumSame(s[1..], f, g);
    }
  }

  lemma SubsetSize<T>(a: set<T>, b: set<T>)
    requires a <= b
    ensures |a| <= |b|
  {
    assert b == a + (b - a);
  }

  /** A later record of the same batch: no counter went down, no terminal run changed. */
  ghost predicate Progressed(p: Snapshot, q: Snapshot) {
    && p.runsCompleted <= q.runsCompleted && p.runsDispatched <= q.runsDispatched && p.cvsCompleted <= q.cvsCompleted
    && |p.apps| == |q.apps|
    && (forall i :: 0 <= i < |p.apps| ==> AppProgressed(p.apps[i], q.apps[i]))
  }

  ghost predicate AppProgressed(a: App, c: App) {
    && a.runsCompleted <= c.runsCompleted && |a.runs| == |c.runs|
    && forall j :: 0 <= j < |a.runs| && IsTerminalStatus(a.runs[j].status) ==> c.runs[j] == a.runs[j]
  }

  lemma ResultProgresses(p: Snapshot, b: Batch, sent: set<string>, done: map<string, RunResult>, i: nat, j: nat,
                         r: RunResult, t: Time)
    requires DistinctApplications(b) && Describes(p, b, sent, done)
    requires i < |b.cvs| && j < b.runCount && r.runId == RunIdOf(b, i, j)
    requires r.runId in sent && r.runId !in done
    ensures Progressed(p, RecordResult(p, r, t))
  {
    FindsItsPlace(p, b, sent, done, i, j);
    ResultStep(p, b, sent, done, i, j, r, t);
    assert AppMatches(p.apps[i], b, i, sent, done);
    hide Describes, SummarizeApplicationStatus, IsTerminalStatus, Names, AppMatches, RunIdOf, FindRun, RunIds;
    var q := RecordResult(p, r, t);
    var app := q.apps[i];
    NotTerminalWith(p.apps[i].runs, j);
    TerminalIdsStay(p.apps, i, app);
    SubsetSize(TerminalIds(p.apps), TerminalIds(q.apps));
    hide TerminalIds, RecordResult;
    OwnAppProgressed(p.apps[i], j, r, t);
    forall k | 0 <= k < |p.apps| ensures AppProgressed(p.apps[k], q.apps[k]) {
    }
  }

  lemma OwnAppProgressed(app: App, j: nat, r: RunResult, t: Time)
    requires j < |app.runs| && !IsTerminalStatus(app.runs[j].status)
    ensures AppProgressed(app, FinishedApp(app, j, r, t))
  {
    hide SummarizeApplicationStatus, IsTerminalStatus, Names;
  }

  lemma TerminalIdsStay(apps: seq<App>, i: nat, app: App)
    requires i < |apps| && !IsApplicationTerminal(apps[i].runs)
    ensures TerminalIds(apps) <= TerminalIds(apps[i := app])
  {
    hide IsApplicationTerminal;
    forall id | id in TerminalIds(apps) ensures id in TerminalIds(apps[i := app]) {
      var k :| 0 <= k < |apps| && IsApplicationTerminal(apps[k].runs) && apps[k].applicationId == id;
      assert apps[i := app][k] == apps[k];
    }
  }

  lemma ProgressedTransitive(p: Snapshot, q: Snapshot, r: Snapshot)
    requires Progressed(p, q) && Progressed(q, r)
    ensures Progressed(p, r)
  {
    forall i | 0 <= i < |p.apps| ensures AppProgressed(p.apps[i], r.apps[i]) {
      assert AppProgressed(p.apps[i], q.apps[i]) && AppProgressed(q.apps[i], r.apps[i]);
    }
  }

  /** From any moment of the result phase to any later one the record only progresses. */
  lemma {:induction false} ResultPhaseProgresses(b: Batch, t0: Time, t1: Time, arrivals: seq<Arrival>, k: nat)
    requires b.runCount >= 1 && DistinctApplications(b) && ValidArrivals(b, arrivals) && k <= |arrivals|
    ensures Progressed(StateAfter(b, t0, t1, arrivals[..k]), StateAfter(b, t0, t1, arrivals))
  {
    hide RecordResult, Describes;
    if k == |arrivals| {
      assert arrivals[..k] == arrivals;
    } else {
      var front, last := arrivals[..|arrivals| - 1], arrivals[|arrivals| - 1];
      assert front[..k] == arrivals[..k];
      ResultPhaseProgresses(b, t0, t1, front, k);
      ResultPhase(b, t0, t1, front);
      ResultsOfMembers(front);
      RunIdsExactly(b);
      var i: nat, j: nat :| IsRunOf(b, last.result.runId, i, j);
      ResultProgresses(StateAfter(b, t0, t1, front), b, IdSet(RunIds(b)), ResultsOf(front), i, j, last.result, last.at);
      ProgressedTransitive(StateAfter(b, t0, t1, arrivals[..k]), StateAfter(b, t0, t1, front),
          StateAfter(b, t0, t1, arrivals));
    }
  }

  // ---- confluence -------------------------------------------------------------------------------

  function EraseTime(t: Option<Time>): Option<Time> {
    if t.Some? then Some("") else None
  }

  function EraseRun(run: Run): Run {
    run.(dispatchedAt := EraseTime(run.dispatchedAt), completedAt := EraseTime(run.completedAt))
  }

  function EraseApp(app: App): App {
    app.(lastUpdatedAt := "", runs := seq(|app.runs|, j requires 0 <= j < |app.runs| => EraseRun(app.runs[j])))
  }

  /** The record without its timestamps. */
  function Erase(p: Snapshot): Snapshot {
    p.(lastUpdatedAt := "", apps := seq(|p.apps|, i requires 0 <= i < |p.apps| => EraseApp(p.apps[i])))
  }

  lemma AppDetermined(x: App, y: App, b: Batch, i: nat, sent: set<string>, done: map<string, RunResult>)
    requires i < |b.cvs| && AppMatches(x, b, i, sent, done) && AppMatches(y, b, i, sent, done)
    requires AppCachesAgree(x) && AppCachesAgree(y)
    ensures EraseApp(x) == EraseApp(y) && x.applicationId == y.applicationId
    ensures CompletedRuns(x) == CompletedRuns(y) && DispatchedRuns(x) == DispatchedRuns(y)
    ensures IsApplicationTerminal(x.runs) <==> IsApplicationTerminal(y.runs)
  {
    forall j | 0 <= j < b.runCount
      ensures EraseRun(x.runs[j]) == EraseRun(y.runs[j]) && x.runs[j].status == y.runs[j].status
    {
      var id := RunIdOf(b, i, j);
      assert RunMatches(x.runs[j], id, j, sent, done) && RunMatches(y.runs[j], id, j, sent, done);
    }
    forall j | 0 <= j < b.runCount
      ensures CompletedBit(x.runs[j]) == CompletedBit(y.runs[j]) && DispatchedBit(x.runs[j]) == DispatchedBit(y.runs[j])
    {
      assert EraseRun(x.runs[j]) == EraseRun(y.runs[j]);
    }
    SumAgrees(x.runs, y.runs, CompletedBit);
    SumAgrees(x.runs, y.runs, DispatchedBit);
    assert Keys(x.runs) == Keys(y.runs);
    assert EraseApp(x).runs == EraseApp(y).runs;
  }

  /** Two records of a batch that heard the same from the same runs differ in time only. */
  lemma RecordDetermined(p: Snapshot, q: Snapshot, b: Batch, sent: set<string>, done: map<string, RunResult>)
    requires Describes(p, b, sent, done) && Describes(q, b, sent, done)
    ensures Erase(p) == Erase(q)
  {
    hide AppMatches, AppCachesAgree, CompletedRuns, DispatchedRuns, EraseApp, IsApplicationTerminal;
    forall i | 0 <= i < |b.cvs|
      ensures EraseApp(p.apps[i]) == EraseApp(q.apps[i])
      ensures CompletedRuns(p.apps[i]) == CompletedRuns(q.apps[i])
          && DispatchedRuns(p.apps[i]) == DispatchedRuns(q.apps[i])
      ensures IsApplicationTerminal(p.apps[i].runs) <==> IsApplicationTerminal(q.apps[i].runs)
      ensures p.apps[i].applicationId == q.apps[i].applicationId
    {
      AppDetermined(p.apps[i], q.apps[i], b, i, sent, done);
    }
    SumAgrees(p.apps, q.apps, CompletedRuns);
    SumAgrees(p.apps, q.apps, DispatchedRuns);
    assert TerminalIds(p.apps) == TerminalIds(q.apps);
    assert Erase(p).apps == Erase(q).apps;
  }

  function Results(arrivals: seq<Arrival>): seq<RunResult> {
    seq(|arrivals|, k requires 0 <= k < |arrivals| => arrivals[k].result)
  }

  lemma SameResultsSameMap(b: Batch, x: seq<Arrival>, y: seq<Arrival>)
    requires ValidArrivals(b, x) && ValidArrivals(b, y)
    requires multiset(Results(x)) == multiset(Results(y))
    ensures ResultsOf(x) == ResultsOf(y)
  {
    ResultsOfMembers(x);
    ResultsOfMembers(y);
    MapIncluded(b, x, y);
    MapIncluded(b, y, x);
  }

  lemma MapIncluded(b: Batch, x: seq<Arrival>, y: seq<Arrival>)
    requires ValidArrivals(b, x) && ValidArrivals(b, y)
    requires multiset(Results(x)) == multiset(Results(y))
    ensures forall id :: id in ResultsOf(x) ==> id in ResultsOf(y) && ResultsOf(y)[id] == ResultsOf(x)[id]
  {
    ResultsOfMembers(x);
    ResultsOfMembers(y);
    forall id | id in ResultsOf(x) ensures id in ResultsOf(y) && ResultsOf(y)[id] == ResultsOf(x)[id] {
      var k :| 0 <= k < |x| && x[k].result == ResultsOf(x)[id] && x[k].result.runId == id;
      assert Results(x)[k] in multiset(Results(y));
      var l :| 0 <= l < |Results(y)| && Results(y)[l] == Results(x)[k];
      assert y[l].result.runId == id;
      var m :| 0 <= m < |y| && y[m].result == ResultsOf(y)[id] && y[m].result.runId == id;
      assert m == l;
    }
  }

  /** Confluence: two arrival orders of the same results leave the same record, timestamps
      apart, even if also the dispatches and arrivals happened at other times. */
  lemma Confluence(b: Batch, t0: Time, t1: Time, x: seq<Arrival>, u0: Time, u1: Time, y: seq<Arrival>)
    requires b.runCount >= 1 && DistinctApplications(b)
    requires ValidArrivals(b, x) && ValidArrivals(b, y)
    requires multiset(Results(x)) == multiset(Results(y))
    ensures Erase(StateAfter(b, t0, t1, x)) == Erase(StateAfter(b, u0, u1, y))
  {
    SameResultsSameMap(b, x, y);
    ResultPhase(b, t0, t1, x);
    ResultPhase(b, u0, u1, y);
    RecordDetermined(StateAfter(b, t0, t1, x), StateAfter(b, u0, u1, y), b, IdSet(RunIds(b)), ResultsOf(x));
  }

  // ---- the verdict --------------------------------------------------------------------------------

  /** Reads the cached application statuses only. */
  predicate IsCancelledBatch(apps: seq<App>) {
    apps != [] && forall i :: 0 <= i < |apps| ==> IsCancelledKey(StatusKey(apps[i].status))
  }

  lemma SummaryIsCancelled(keys: seq<string>)
    requires keys != []
    ensures IsCancelledKey(StatusKey(SummarizeKeys(keys))) <==> forall j :: 0 <= j < |keys| ==> IsCancelledKey(keys[j])
  {
    KnownKeys();
    hide StatusKey;
    if forall j :: 0 <= j < |keys| ==> IsCancelledKey(keys[j]) {
      assert IsCancelledKey(keys[0]);
    }
  }

  ghost predicate AllCancelled(b: Batch, i: nat, done: map<string, RunResult>)
    requires i < |b.cvs|
  {
    forall j :: 0 <= j < b.runCount && RunIdOf(b, i, j) in done ==>
        IsCancelledKey(StatusKey(done[RunIdOf(b, i, j)].status))
  }

  lemma AppVerdict(app: App, b: Batch, i: nat, sent: set<string>, done: map<string, RunResult>)
    requires i < |b.cvs| && b.runCount >= 1 && AppMatches(app, b, i, sent, done) && AppCachesAgree(app)
    requires forall j :: 0 <= j < b.runCount ==> RunIdOf(b, i, j) in done
    ensures IsCancelledKey(StatusKey(app.status)) <==> AllCancelled(b, i, done)
  {
    hide StatusKey, SummarizeKeys, IsCancelledKey;
    SummaryIsCancelled(Keys(app.runs));
    forall j | 0 <= j < b.runCount ensures Keys(app.runs)[j] == StatusKey(done[RunIdOf(b, i, j)].status) {
      assert RunMatches(app.runs[j], RunIdOf(b, i, j), j, sent, done);
    }
  }

  /** A finished batch is judged cancelled exactly when every single run was reported
      cancelled (in either spelling, any case), although only caches are read. */
  lemma VerdictFromRuns(p: Snapshot, b: Batch, sent: set<string>, done: map<string, RunResult>)
    requires b.cvs != [] && b.runCount >= 1 && Describes(p, b, sent, done)
    requires forall id :: id in RunIds(b) ==> id in done
    ensures IsCancelledBatch(p.apps) <==>
      forall id :: id in RunIds(b) ==> StatusKey(done[id].status) in {"cancelled", "canceled"}
  {
    assert forall key :: IsCancelledKey(key) <==> key in {"cancelled", "canceled"};
    hide StatusKey, IsCancelledKey, RunIds, RunIdOf;
    RunIdsExactly(b);
    forall i: nat, j: nat | i < |b.cvs| && j < b.runCount ensures RunIdOf(b, i, j) in RunIds(b) {
      assert IsRunOf(b, RunIdOf(b, i, j), i, j);
    }
    forall i | 0 <= i < |b.cvs| ensures IsCancelledKey(StatusKey(p.apps[i].status)) <==> AllCancelled(b, i, done) {
      AppVerdict(p.apps[i], b, i, sent, done);
    }
    if IsCancelledBatch(p.apps) {
      forall id | id in RunIds(b) ensures IsCancelledKey(StatusKey(done[id].status)) {
        var i: nat, j: nat :| IsRunOf(b, id, i, j);
        assert AllCancelled(b, i, done);
      }
    }
  }

  // ---- why distinct application ids are needed ---------------------------------------------------

  /** An application whose run ids all occur in an earlier application is out of reach:
      no update ever touches it. */
  lemma ShadowedIsUntouched(p: Snapshot, i: nat, k: nat, id: string, r: RunResult, t: Time)
    requires i < k < |p.apps|
    requires forall j :: 0 <= j < |p.apps[k].runs| ==> HasRun(p.apps[i], p.apps[k].runs[j].runId)
    ensures RecordDispatched(p, id, t).apps[k] == p.apps[k]
    ensures RecordResult(p, r, t).apps[k] == p.apps[k]
    ensures |RecordDispatched(p, id, t).apps| == |RecordResult(p, r, t).apps| == |p.apps|
  {
  }

  lemma ShadowStays(p: Snapshot, i: nat, k: nat, id: string, r: RunResult, t: Time)
    requires i < k < |p.apps|
    requires forall j :: 0 <= j < |p.apps[k].runs| ==> HasRun(p.apps[i], p.apps[k].runs[j].runId)
    ensures var q := RecordDispatched(p, id, t);
      forall j :: 0 <= j < |q.apps[k].runs| ==> HasRun(q.apps[i], q.apps[k].runs[j].runId)
    ensures var q := RecordResult(p, r, t);
      forall j :: 0 <= j < |q.apps[k].runs| ==> HasRun(q.apps[i], q.apps[k].runs[j].runId)
  {
    ShadowedIsUntouched(p, i, k, id, r, t);
    UpdatesKeepRunIds(p, i, id, r, t);
    hide RecordDispatched, RecordResult, HasRun;
    KeepsRunIds(p.apps[i], RecordDispatched(p, id, t).apps[i]);
    KeepsRunIds(p.apps[i], RecordResult(p, r, t).apps[i]);
  }

  lemma UpdatesKeepRunIds(p: Snapshot, i: nat, id: string, r: RunResult, t: Time)
    requires i < |p.apps|
    ensures |RecordDispatched(p, id, t).apps| == |RecordResult(p, r, t).apps| == |p.apps|
    ensures SameRunIds(p.apps[i], RecordDispatched(p, id, t).apps[i])
    ensures SameRunIds(p.apps[i], RecordResult(p, r, t).apps[i])
  {
    hide HasRun, FindRun, SummarizeApplicationStatus, TerminalIds, IsTerminalStatus;
  }

  ghost predicate SameRunIds(a: App, c: App) {
    |a.runs| == |c.runs| && forall j :: 0 <= j < |a.runs| ==> c.runs[j].runId == a.runs[j].runId
  }

  lemma KeepsRunIds(a: App, c: App)
    requires SameRunIds(a, c)
    ensures forall id :: HasRun(a, id) ==> HasRun(c, id)
  {
    forall id | HasRun(a, id) ensures HasRun(c, id) {
      var j :| 0 <= j < |a.runs| && a.runs[j].runId == id;
      assert c.runs[j].runId == id;
    }
  }

  lemma {:induction false} ShadowedThroughDispatch(p: Snapshot, ids: seq<string>, i: nat, k: nat, t: Time)
    requires i < k < |p.apps|
    requires forall j :: 0 <= j < |p.apps[k].runs| ==> HasRun(p.apps[i], p.apps[k].runs[j].runId)
    ensures var q := Dispatched(p, ids, t);
      && |q.apps| == |p.apps| && q.apps[k] == p.apps[k]
      && forall j :: 0 <= j < |q.apps[k].runs| ==> HasRun(q.apps[i], q.apps[k].runs[j].runId)
  {
    if ids != [] {
      ShadowedThroughDispatch(p, ids[..|ids| - 1], i, k, t);
      var q := Dispatched(p, ids[..|ids| - 1], t);
      var any := RunResult("", "", 0, 0, 0, None, "", None, None);
      ShadowedIsUntouched(q, i, k, ids[|ids| - 1], any, t);
      ShadowStays(q, i, k, ids[|ids| - 1], any, t);
    }
  }

  lemma {:induction false} ShadowedThroughResults(p: Snapshot, arrivals: seq<Arrival>, i: nat, k: nat)
    requires i < k < |p.apps|
    requires forall j :: 0 <= j < |p.apps[k].runs| ==> HasRun(p.apps[i], p.apps[k].runs[j].runId)
    ensures var q := Collected(p, arrivals);
      && |q.apps| == |p.apps| && q.apps[k] == p.apps[k]
      && forall j :: 0 <= j < |q.apps[k].runs| ==> HasRun(q.apps[i], q.apps[k].runs[j].runId)
  {
    if arrivals != [] {
      var front, last := arrivals[..|arrivals| - 1], arrivals[|arrivals| - 1];
      ShadowedThroughResults(p, front, i, k);
      var q := Collected(p, front);
      ShadowedIsUntouched(q, i, k, "", last.result, last.at);
      ShadowStays(q, i, k, "", last.result, last.at);
    }
  }

  /** Of two CVs with the same application id the second stays `queued` for ever, whatever
      results arrive: the batch can never report all its CVs as completed. */
  lemma DuplicateApplicationStaysQueued(b: Batch, t0: Time, t1: Time, arrivals: seq<Arrival>, i: nat, k: nat)
    requires b.runCount >= 1 && i < k < |b.cvs| && b.cvs[i].applicationId == b.cvs[k].applicationId
    ensures var q := StateAfter(b, t0, t1, arrivals);
      |q.apps| == |b.cvs| && q.apps[k] == InitialApp(b, k, t0) && !IsApplicationTerminal(q.apps[k].runs)
  {
    var p := InitialProgress(b, t0);
    forall j | 0 <= j < |p.apps[k].runs| ensures HasRun(p.apps[i], p.apps[k].runs[j].runId) {
      assert p.apps[i].runs[j].runId == p.apps[k].runs[j].runId;
    }
    ShadowedThroughDispatch(p, RunIds(b), i, k, t1);
    ShadowedThroughResults(Dispatched(p, RunIds(b), t1), arrivals, i, k);
    InitialAppDescribes(b, k, t0);
  }
}
