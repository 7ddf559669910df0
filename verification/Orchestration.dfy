/** The orchestrator's own bookkeeping: event numbers, the events sent out, and which
    applications were announced as complete. */
module Orchestration {
  import opened Options
  import opened Text
  import opened Sums
  import opened Contracts
  import opened Progress
  import opened Reachability
  import opened ProgressTheorems

  datatype EventKind =
    | RunDispatched | RunCompleted | RunFailed | RunCancelled
    | ApplicationCompleted | BatchCompleted | BatchCancelled

  datatype LiveEvent = LiveEvent(
    kind: EventKind,
    sequence: int,
    occurredAt: Time,
    runId: Option<string>,
    status: string,
    cvsCompleted: int,
    runsCompleted: int,
    runsDispatched: int)

  datatype State = State(progress: Snapshot, sequence: int, announced: set<string>, log: seq<LiveEvent>)

  function BuildEvent(kind: EventKind, p: Snapshot, t: Time, sequence: int, runId: Option<string>): LiveEvent {
    LiveEvent(kind, sequence, t, runId, p.status, p.cvsCompleted, p.runsCompleted, p.runsDispatched)
  }

  function TerminalRunKind(status: string): EventKind {
    var key := StatusKey(status);
    if key == "failed" then RunFailed else if IsCancelledKey(key) then RunCancelled else RunCompleted
  }

  ghost predicate IsFirst(apps: seq<App>, id: string, k: nat) {
    k < |apps| && apps[k].applicationId == id && forall l :: 0 <= l < k ==> apps[l].applicationId != id
  }

  /** The first application with this id. */
  function FindApplication(apps: seq<App>, id: string): (r: Option<App>)
    ensures r.Some? ==> exists k: nat :: IsFirst(apps, id, k) && r.value == apps[k]
    ensures r.None? ==> forall k :: 0 <= k < |apps| ==> apps[k].applicationId != id
  {
    if apps == [] then None
    else if apps[0].applicationId == id then
      assert IsFirst(apps, id, 0);
      Some(apps[0])
    else
      var r := FindApplication(apps[1..], id);
      assert forall k :: 0 < k < |apps| ==> apps[k] == apps[1..][k - 1];
      assert forall k: nat :: IsFirst(apps[1..], id, k) ==> IsFirst(apps, id, k + 1) && apps[1..][k] == apps[k + 1];
      r
  }

  function FirstRunId(app: App): Option<string> {
    if app.runs != [] then Some(app.runs[0].runId) else None
  }

  /** The sequence number an observer of the progress record alone would give the next event. */
  function NextEventSequence(p: Snapshot): int {
    p.runsDispatched + p.runsCompleted + Sum(p.apps, TerminalBit) + 1
  }

  // ---- steps -----------------------------------------------------------------------------------

  function Start(b: Batch, t: Time): State {
    State(InitialProgress(b, t), 0, {}, [])
  }

  /** Count up and send the event with the new number. */
  function Emit(s: State, kind: EventKind, t: Time, runId: Option<string>): State {
    s.(sequence := s.sequence + 1, log := s.log + [BuildEvent(kind, s.progress, t, s.sequence + 1, runId)])
  }

  function OnDispatched(s: State, id: string, t: Time): State {
    Emit(s.(progress := RecordDispatched(s.progress, id, t)), RunDispatched, t, Some(id))
  }

  function OnRunTerminal(s: State, r: RunResult, t: Time): State {
    Emit(s.(progress := RecordResult(s.progress, r, t)), TerminalRunKind(r.status), t, Some(r.runId))
  }

  function Announce(s: State, applicationId: string, t: Time): State {
    var app := FindApplication(s.progress.apps, applicationId);
    if app.Some? && IsApplicationTerminal(app.value.runs) && applicationId !in s.announced then
      Emit(s.(announced := s.announced + {applicationId}), ApplicationCompleted, t, FirstRunId(app.value))
    else s
  }

  function OnResult(s: State, applicationId: string, r: RunResult, t: Time): State {
    Announce(OnRunTerminal(s, r, t), applicationId, t)
  }

  function FinalProgress(p: Snapshot, t: Time): Snapshot {
    p.(status := if IsCancelledBatch(p.apps) then "cancelled" else "completed", lastUpdatedAt := t)
  }

  function OnFinished(s: State, t: Time): State {
    var p := FinalProgress(s.progress, t);
    Emit(s.(progress := p), if IsCancelledBatch(p.apps) then BatchCancelled else BatchCompleted, t, None)
  }

  // ---- whole runs ------------------------------------------------------------------------------

  /** The application id a run id was minted for. */
  ghost function OwnerOf(b: Batch, id: string): (a: string)
    requires id in RunIds(b)
    ensures exists i: nat, j: nat :: IsRunOf(b, id, i, j) && a == b.cvs[i].applicationId
  {
    RunIdsExactly(b);
    var i: nat, j: nat :| IsRunOf(b, id, i, j);
    b.cvs[i].applicationId
  }

  lemma OwnerOfPlace(b: Batch, id: string, i: nat, j: nat)
    requires IsRunOf(b, id, i, j)
    ensures id in RunIds(b) && OwnerOf(b, id) == b.cvs[i].applicationId
  {
    RunIdsExactly(b);
    var k: nat, l: nat :| IsRunOf(b, id, k, l) && OwnerOf(b, id) == b.cvs[k].applicationId;
    assert IsRunOf(b, id, k, l);
    RunNaming.RunIdInjectiveInBatch(b.batchId, b.cvs[i].applicationId, j, b.cvs[k].applicationId, l);
  }

  function DispatchAll(s: State, ids: seq<string>, t: Time): State {
    if ids == [] then s else OnDispatched(DispatchAll(s, ids[..|ids| - 1], t), ids[|ids| - 1], t)
  }

  ghost function CollectAll(b: Batch, s: State, arrivals: seq<Arrival>): State
    requires forall k :: 0 <= k < |arrivals| ==> arrivals[k].result.runId in RunIds(b)
  {
    if arrivals == [] then s
    else
      var last := arrivals[|arrivals| - 1];
      OnResult(CollectAll(b, s, arrivals[..|arrivals| - 1]), OwnerOf(b, last.result.runId), last.result, last.at)
  }

  /** The orchestrator at a head of its result loop. */
  ghost function AtLoopHead(b: Batch, t0: Time, t1: Time, arrivals: seq<Arrival>): State
    requires ValidArrivals(b, arrivals)
  {
    CollectAll(b, DispatchAll(Start(b, t0), RunIds(b), t1), arrivals)
  }

  // ---- numbering -------------------------------------------------------------------------------

  /** Event numbers run from 1 without gap or repetition. */
  ghost predicate Numbered(s: State) {
    |s.log| == s.sequence && forall k :: 0 <= k < |s.log| ==> s.log[k].sequence == k + 1
  }

  function Announcements(log: seq<LiveEvent>): nat {
    if log == [] then 0
    else Announcements(log[..|log| - 1]) + if log[|log| - 1].kind == ApplicationCompleted then 1 else 0
  }

  /** What the counters say whenever the orchestrator waits: its own is one less than the
      number an observer would compute, and it remembers as announced exactly the
      applications all of whose runs are terminal, with as many announcements sent. */
  ghost predicate Counted(s: State) {
    && Numbered(s)
    && NextEventSequence(s.progress) == s.sequence + 1
    && s.announced == TerminalIds(s.progress.apps)
    && Announcements(s.log) == |s.announced|
  }

  lemma EmitKeepsNumbers(s: State, kind: EventKind, t: Time, runId: Option<string>)
    requires Numbered(s)
    ensures Numbered(Emit(s, kind, t, runId))
    ensures Announcements(Emit(s, kind, t, runId).log) ==
      Announcements(s.log) + if kind == ApplicationCompleted then 1 else 0
  {
    var log := Emit(s, kind, t, runId).log;
    assert log[..|s.log|] == s.log;
  }

  lemma NoneTerminal(p: Snapshot, b: Batch, sent: set<string>)
    requires DistinctApplications(b) && b.runCount >= 1 && Describes(p, b, sent, map[])
    ensures TerminalIds(p.apps) == {} && Sum(p.apps, TerminalBit) == 0 && p.runsCompleted == 0
  {
    forall i | 0 <= i < |p.apps| ensures !IsApplicationTerminal(p.apps[i].runs) && CompletedRuns(p.apps[i]) == 0 {
      assert AppMatches(p.apps[i], b, i, sent, map[]);
      forall j | 0 <= j < b.runCount
        ensures CompletedBit(p.apps[i].runs[j]) == 0 && !IsTerminalStatus(p.apps[i].runs[j].status) {
        assert RunMatches(p.apps[i].runs[j], RunIdOf(b, i, j), j, sent, map[]);
        StatusesOf(p.apps[i].runs[j], RunIdOf(b, i, j), j, sent, map[]);
      }
      SumZero(p.apps[i].runs, CompletedBit);
      assert !IsTerminalStatus(p.apps[i].runs[0].status);
    }
    SumZero(p.apps, CompletedRuns);
    SumZero(p.apps, TerminalBit);
  }

  lemma StartCounted(b: Batch, t: Time)
    requires b.runCount >= 1 && DistinctApplications(b)
    ensures Counted(Start(b, t)) && Start(b, t).progress.runsDispatched == 0
  {
    InitialDescribes(b, t);
    NoneTerminal(InitialProgress(b, t), b, {});
    hide Describes, TerminalIds, Sum;
  }

  lemma FreshRunId(b: Batch, k: nat)
    requires DistinctApplications(b) && k < |RunIds(b)|
    ensures RunIds(b)[k] !in IdSet(RunIds(b)[..k])
    ensures exists i: nat, j: nat :: IsRunOf(b, RunIds(b)[k], i, j)
  {
    RunIdsDistinct(b);
    RunIdsExactly(b);
    assert RunIds(b)[k] in RunIds(b);
  }

  lemma DispatchCounted(s: State, b: Batch, sent: set<string>, i: nat, j: nat, t: Time)
    requires Counted(s) && DistinctApplications(b) && b.runCount >= 1 && Describes(s.progress, b, sent, map[])
    requires i < |b.cvs| && j < b.runCount && RunIdOf(b, i, j) !in sent
    ensures var s' := OnDispatched(s, RunIdOf(b, i, j), t);
      && Counted(s') && s'.progress == RecordDispatched(s.progress, RunIdOf(b, i, j), t)
      && s'.progress.runsDispatched == s.progress.runsDispatched + 1
  {
    var id := RunIdOf(b, i, j);
    var p := RecordDispatched(s.progress, id, t);
    DispatchCounts(s.progress, b, sent, i, j, t);
    DispatchStep(s.progress, b, sent, i, j, t);
    NoneTerminal(s.progress, b, sent);
    NoneTerminal(p, b, sent + {id});
    hide RecordDispatched, Describes, TerminalIds, Sum, Announcements, RunIdOf;
    EmitKeepsNumbers(s.(progress := p), RunDispatched, t, Some(id));
  }

  lemma DispatchCounts(p: Snapshot, b: Batch, sent: set<string>, i: nat, j: nat, t: Time)
    requires DistinctApplications(b) && Describes(p, b, sent, map[])
    requires i < |b.cvs| && j < b.runCount && RunIdOf(b, i, j) !in sent
    ensures RecordDispatched(p, RunIdOf(b, i, j), t).runsDispatched == p.runsDispatched + 1
  {
    FindsItsPlace(p, b, sent, map[], i, j);
    assert AppMatches(p.apps[i], b, i, sent, map[]);
    assert RunMatches(p.apps[i].runs[j], RunIdOf(b, i, j), j, sent, map[]);
  }

  /** A result can complete its own application and no other. */
  lemma TerminalAfterResult(p: Snapshot, b: Batch, sent: set<string>, done: map<string, RunResult>, i: nat, j: nat,
                            r: RunResult, t: Time)
    requires DistinctApplications(b) && Describes(p, b, sent, done)
    requires i < |b.cvs| && j < b.runCount && r.runId == RunIdOf(b, i, j)
    requires r.runId in sent && r.runId !in done
    ensures var q, id := RecordResult(p, r, t), b.cvs[i].applicationId;
      && i < |q.apps| && q.runsDispatched == p.runsDispatched && q.runsCompleted == p.runsCompleted + 1
      && id !in TerminalIds(p.apps)
      && FindApplication(q.apps, id) == Some(q.apps[i])
      && TerminalIds(q.apps) == TerminalIds(p.apps) + (if IsApplicationTerminal(q.apps[i].runs) then {id} else {})
      && Sum(q.apps, TerminalBit) == Sum(p.apps, TerminalBit) + if IsApplicationTerminal(q.apps[i].runs) then 1 else 0
  {
    var q, id := RecordResult(p, r, t), b.cvs[i].applicationId;
    FindsItsPlace(p, b, sent, done, i, j);
    ResultStep(p, b, sent, done, i, j, r, t);
    DistinctAppIds(p, b, sent, done);
    DistinctAppIds(q, b, sent, done[r.runId := r]);
    assert AppMatches(p.apps[i], b, i, sent, done) && AppMatches(q.apps[i], b, i, sent, done[r.runId := r]);
    hide Describes, AppMatches, SummarizeApplicationStatus, IsTerminalStatus, Names, RunIdOf;
    NotTerminalWith(p.apps[i].runs, j);
    SumUpdate(p.apps, i, q.apps[i], TerminalBit);
    TerminalIdsGrow(p.apps, i, q.apps[i]);
  }

  lemma TerminalIdsGrow(apps: seq<App>, i: nat, app: App)
    requires i < |apps| && !IsApplicationTerminal(apps[i].runs) && app.applicationId == apps[i].applicationId
    requires forall k, l :: 0 <= k < l < |apps| ==> apps[k].applicationId != apps[l].applicationId
    ensures app.applicationId !in TerminalIds(apps)
    ensures TerminalIds(apps[i := app]) == TerminalIds(apps) +
        (if IsApplicationTerminal(app.runs) then {app.applicationId} else {})
  {
    var apps' := apps[i := app];
    forall id | id in TerminalIds(apps) ensures id in TerminalIds(apps') {
      var k :| 0 <= k < |apps| && IsApplicationTerminal(apps[k].runs) && apps[k].applicationId == id;
      assert apps'[k] == apps[k];
    }
    forall id | id in TerminalIds(apps')
      ensures id in TerminalIds(apps) + (if IsApplicationTerminal(app.runs) then {app.applicationId} else {}) {
      var k :| 0 <= k < |apps'| && IsApplicationTerminal(apps'[k].runs) && apps'[k].applicationId == id;
      if k != i {
        assert apps'[k] == apps[k];
      }
    }
    if IsApplicationTerminal(app.runs) {
      assert apps'[i].applicationId in TerminalIds(apps');
    }
  }

  /** Sending a run's event and then, if due, its application's keeps everything in step. */
  lemma AnnounceCounted(s: State, p: Snapshot, app: App, id: string, kind: EventKind, t: Time, runId: Option<string>)
    requires Counted(s) && kind != ApplicationCompleted
    requires FindApplication(p.apps, id) == Some(app) && id !in s.announced
    requires p.runsDispatched == s.progress.runsDispatched && p.runsCompleted == s.progress.runsCompleted + 1
    requires TerminalIds(p.apps) == s.announced + (if IsApplicationTerminal(app.runs) then {id} else {})
    requires Sum(p.apps, TerminalBit) == Sum(s.progress.apps, TerminalBit) +
        if IsApplicationTerminal(app.runs) then 1 else 0
    ensures var s' := Announce(Emit(s.(progress := p), kind, t, runId), id, t); Counted(s') && s'.progress == p
  {
    hide TerminalIds, FindApplication, IsApplicationTerminal, Announcements, Sum, BuildEvent, FirstRunId;
    EmitKeepsNumbers(s.(progress := p), kind, t, runId);
    var mid := Emit(s.(progress := p), kind, t, runId);
    if IsApplicationTerminal(app.runs) {
      EmitKeepsNumbers(mid.(announced := mid.announced + {id}), ApplicationCompleted, t, FirstRunId(app));
    } else {
      assert TerminalIds(p.apps) == s.announced;
    }
  }

  lemma ResultCounted(s: State, b: Batch, sent: set<string>, done: map<string, RunResult>, i: nat, j: nat,
                      r: RunResult, t: Time)
    requires Counted(s) && DistinctApplications(b) && Describes(s.progress, b, sent, done)
    requires i < |b.cvs| && j < b.runCount && r.runId == RunIdOf(b, i, j)
    requires r.runId in sent && r.runId !in done
    ensures var s' := OnResult(s, b.cvs[i].applicationId, r, t);
      && Counted(s') && s'.progress == RecordResult(s.progress, r, t)
      && s'.progress.runsDispatched == s.progress.runsDispatched
          && s'.progress.runsCompleted == s.progress.runsCompleted + 1
  {
    assert s.announced == TerminalIds(s.progress.apps);
    hide RecordResult, Describes, Numbered, Emit, Announce, TerminalIds, Sum, Announcements, FindApplication;
    hide RunIdOf, Counted, IsApplicationTerminal, TerminalRunKind;
    TerminalAfterResult(s.progress, b, sent, done, i, j, r, t);
    RunKindIsNotAnnouncement(r.status);
    var p := RecordResult(s.progress, r, t);
    AnnounceCounted(s, p, p.apps[i], b.cvs[i].applicationId, TerminalRunKind(r.status), t, Some(r.runId));
  }

  /** The kinds of event a terminal run sends are never announcements of an application. */
  lemma RunKindIsNotAnnouncement(status: string)
    ensures TerminalRunKind(status) != ApplicationCompleted
  {
  }

  /** As many results as runs, no two for the same run: every run reported. */
  lemma AllArrived(b: Batch, arrivals: seq<Arrival>)
    requires DistinctApplications(b) && ValidArrivals(b, arrivals) && |arrivals| == |RunIds(b)|
    ensures forall id :: id in RunIds(b) ==> id in ResultsOf(arrivals)
  {
    ResultsOfMembers(arrivals);
    RunIdsDistinct(b);
    hide RunIds, ResultsOf;
    var ids := seq(|arrivals|, k requires 0 <= k < |arrivals| => arrivals[k].result.runId);
    DistinctSize(ids);
    DistinctSize(RunIds(b));
    assert forall k :: 0 <= k < |arrivals| ==> ids[k] in RunIds(b);
    assert IdSet(ids) <= IdSet(RunIds(b));
    FullSubset(IdSet(ids), IdSet(RunIds(b)));
    forall id | id in RunIds(b) ensures id in ResultsOf(arrivals) {
      assert id in IdSet(ids);
    }
  }

  lemma FullSubset<T>(a: set<T>, b: set<T>)
    requires a <= b && |a| == |b|
    ensures a == b
  {
    assert b == a + (b - a);
  }

  lemma {:induction false} DistinctSize(ids: seq<string>)
    requires Distinct(ids)
    ensures |IdSet(ids)| == |ids|
  {
    if ids == [] {
      assert IdSet(ids) == {};
    } else {
      DistinctSize(ids[1..]);
      assert IdSet(ids) == {ids[0]} + IdSet(ids[1..]);
      assert ids[0] !in IdSet(ids[1..]);
    }
  }
}
