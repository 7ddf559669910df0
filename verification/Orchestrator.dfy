/** The orchestration itself: dispatch everything, then take results as they come. */
module Orchestrator {
  import opened Options
  import opened Contracts
  import opened Progress
  import opened ProgressTheorems
  import opened Reachability
  import opened Orchestration
  import opened Finalize
  import opened Tracker

  datatype RunPlace = RunPlace(applicationId: string, runIndex: nat)

  type RunIndexMap = map<string, RunPlace>

  // ---- the waits ---------------------------------------------------------------------------------

  /** `[task for task in pending if task != done]`. */
  function Without(pending: seq<Wait>, done: Wait): (rest: seq<Wait>)
    ensures forall w :: w in rest <==> w in pending && w != done
  {
    if pending == [] then [] else (if pending[0] != done then [pending[0]] else []) + Without(pending[1..], done)
  }

  lemma {:induction false} WithoutOne(pending: seq<Wait>, done: Wait)
    requires Distinct(pending)
    ensures |Without(pending, done)| == |pending| - if done in pending then 1 else 0
    ensures Distinct(Without(pending, done))
  {
    if pending != [] {
      WithoutOne(pending[1..], done);
      var rest := Without(pending[1..], done);
      assert forall k :: 0 <= k < |rest| ==> rest[k] in rest;
      assert pending[0] !in pending[1..];
    }
  }

  ghost predicate WaitsFor(waits: seq<Wait>, b: Batch) {
    forall w :: w in waits ==> w.batchId == b.batchId && IsWaitIn(b, w)
  }

  /** Between two results: what has arrived and what is still awaited make up the batch. */
  ghost predicate Waiting(b: Batch, pending: seq<Wait>, arrivals: seq<Arrival>, events: map<string, RunResult>) {
    && Distinct(pending) && WaitsFor(pending, b)
    && ValidArrivals(b, arrivals)
    && (forall k :: 0 <= k < |arrivals| ==>
         arrivals[k].result.runId in events && arrivals[k].result == events[arrivals[k].result.runId])
    && (forall w, k :: w in pending && 0 <= k < |arrivals| ==> Awaited(b, w) != arrivals[k].result.runId)
    && |pending| + |arrivals| == |RunIds(b)|
  }

  lemma EventOf(b: Batch, events: map<string, RunResult>, id: string)
    requires HasEvents(b, events) && id in RunIds(b)
    ensures id in events && events[id].runId == id
  {
    RunIdsExactly(b);
    var i: nat, j: nat :| IsRunOf(b, id, i, j);
  }

  /** Taking up one result keeps the books balanced. */
  lemma TakeOne(b: Batch, pending: seq<Wait>, arrivals: seq<Arrival>, events: map<string, RunResult>, w: Wait, t: Time)
    requires DistinctApplications(b) && HasEvents(b, events)
    requires Waiting(b, pending, arrivals, events) && w in pending
    ensures IsWaitIn(b, w) && Awaited(b, w) in RunIds(b)
    ensures Awaited(b, w) in events && events[Awaited(b, w)].runId == Awaited(b, w)
    ensures Waiting(b, Without(pending, w), arrivals + [Arrival(events[Awaited(b, w)], t)], events)
  {
    var id := Awaited(b, w);
    RunIdsExactly(b);
    assert IsRunOf(b, id, w.cv, w.runIndex);
    EventOf(b, events, id);
    WithoutOne(pending, w);
    hide RunIds, HasEvents, Without, RunIdOf;
    var arrivals' := arrivals + [Arrival(events[id], t)];
    forall v, k | v in Without(pending, w) && 0 <= k < |arrivals'| ensures Awaited(b, v) != arrivals'[k].result.runId {
      WaitsApart(b, v, w);
    }
  }

  lemma WaitsApart(b: Batch, v: Wait, w: Wait)
    requires DistinctApplications(b) && IsWaitIn(b, v) && IsWaitIn(b, w) && v != w && v.batchId == w.batchId
    ensures Awaited(b, v) != Awaited(b, w)
  {
    hide RunIdOf;
    if Awaited(b, v) == Awaited(b, w) {
      RunPlaceUnique(b, Awaited(b, v), v.cv, v.runIndex, w.cv, w.runIndex);
    }
  }

  // ---- the run index map -------------------------------------------------------------------------

  /** The map tells the place of every run of the first i CVs and of the first j runs of
      the next. */
  ghost predicate Indexed(m: RunIndexMap, b: Batch, i: nat, j: nat) {
    forall k, l :: 0 <= k < |b.cvs| && 0 <= l < b.runCount && (k < i || (k == i && l < j)) ==>
      RunIdOf(b, k, l) in m && m[RunIdOf(b, k, l)] == RunPlace(b.cvs[k].applicationId, l)
  }

  /** A run id met again is met at the same application id and index. */
  lemma IndexOne(m: RunIndexMap, b: Batch, i: nat, j: nat)
    requires i < |b.cvs| && j < b.runCount && Indexed(m, b, i, j)
    ensures Indexed(m[RunIdOf(b, i, j) := RunPlace(b.cvs[i].applicationId, j)], b, i, j + 1)
  {
    var id := RunIdOf(b, i, j);
    forall k: nat, l: nat | k < |b.cvs| && l < b.runCount && RunIdOf(b, k, l) == id
      ensures b.cvs[k].applicationId == b.cvs[i].applicationId && l == j
    {
      RunNaming.RunIdInjectiveInBatch(b.batchId, b.cvs[k].applicationId, l, b.cvs[i].applicationId, j);
    }
  }

  /** Every lookup the orchestrator makes succeeds and tells the truth. */
  lemma LookupSucceeds(m: RunIndexMap, b: Batch, id: string)
    requires Indexed(m, b, |b.cvs|, 0) && id in RunIds(b)
    ensures id in m && m[id].applicationId == OwnerOf(b, id)
    ensures forall r: RunResult :: r.runId == id ==> TagFits(b, Tagged(r, m[id].applicationId, m[id].runIndex))
  {
    RunIdsExactly(b);
    var i: nat, j: nat :| IsRunOf(b, id, i, j);
    OwnerOfPlace(b, id, i, j);
    hide OwnerOf, RunIds;
    assert m[id] == RunPlace(b.cvs[i].applicationId, j);
    forall r: RunResult | r.runId == id ensures TagFits(b, Tagged(r, m[id].applicationId, m[id].runIndex)) {
      assert TagAt(b, Tagged(r, m[id].applicationId, m[id].runIndex), i, j);
    }
  }

  /** The dispatch list: every CV, every run of it, in order. */
  method PlanDispatch(b: Batch) returns (ids: seq<string>, waits: seq<Wait>, runIndexMap: RunIndexMap)
    ensures ids == RunIds(b)
    ensures |waits| == |ids| && Distinct(waits) && WaitsFor(waits, b)
    ensures forall k :: 0 <= k < |waits| ==> Awaited(b, waits[k]) == ids[k]
    ensures Indexed(runIndexMap, b, |b.cvs|, 0)
  {
    hide RunIdOf, RunIdsFrom, Indexed;
    ids, waits, runIndexMap := [], [], map[];
    IndexStart(b);
    RowsEnd(b);
    for i := 0 to |b.cvs|
      invariant ids + RunIdsFrom(b, i) == RunIds(b)
      invariant |waits| == |ids| && Distinct(waits) && WaitsFor(waits, b)
      invariant forall k :: 0 <= k < |waits| ==> waits[k].cv < i && Awaited(b, waits[k]) == ids[k]
      invariant Indexed(runIndexMap, b, i, 0)
    {
      ghost var before := ids;
      ghost var row := Row(b, i);
      RowFirst(b, i);
      for j := 0 to b.runCount
        invariant ids == before + row[..j]
        invariant |waits| == |ids| && Distinct(waits) && WaitsFor(waits, b)
        invariant forall k :: 0 <= k < |waits| ==>
          (waits[k].cv < i || (waits[k].cv == i && waits[k].runIndex < j)) && Awaited(b, waits[k]) == ids[k]
        invariant Indexed(runIndexMap, b, i, j)
      {
        var runId := RunIdOf(b, i, j);
        IndexOne(runIndexMap, b, i, j);
        runIndexMap := runIndexMap[runId := RunPlace(b.cvs[i].applicationId, j)];
        waits := waits + [Wait(b.batchId, i, j)];
        ids := ids + [runId];
      }
      assert row[..b.runCount] == row;
      IndexRow(runIndexMap, b, i);
    }
  }

  lemma RowFirst(b: Batch, i: nat)
    requires i < |b.cvs|
    ensures RunIdsFrom(b, i) == Row(b, i) + RunIdsFrom(b, i + 1)
  {
  }

  lemma RowsEnd(b: Batch)
    ensures RunIdsFrom(b, |b.cvs|) == []
  {
  }

  lemma IndexStart(b: Batch)
    ensures Indexed(map[], b, 0, 0)
  {
  }

  lemma IndexRow(m: RunIndexMap, b: Batch, i: nat)
    requires Indexed(m, b, i, b.runCount)
    ensures Indexed(m, b, i + 1, 0)
  {
  }

  // ---- the result loop ---------------------------------------------------------------------------

  lemma LoopHeadStep(b: Batch, t0: Time, t1: Time, arrivals: seq<Arrival>, events: map<string, RunResult>,
                     next: Arrival, pending: seq<Wait>)
    requires Waiting(b, pending, arrivals + [next], events)
    ensures ValidArrivals(b, arrivals + [next])
    ensures next.result.runId in RunIds(b) && ValidArrivals(b, arrivals)
    ensures AtLoopHead(b, t0, t1, arrivals + [next]) ==
      OnResult(AtLoopHead(b, t0, t1, arrivals), OwnerOf(b, next.result.runId), next.result, next.at)
  {
    var all := arrivals + [next];
    assert all[|all| - 1] == next && all[..|all| - 1] == arrivals;
    assert forall k :: 0 <= k < |arrivals| ==> all[k] == arrivals[k];
  }

  function Tag(m: RunIndexMap, r: RunResult): Tagged
    requires r.runId in m
  {
    Tagged(r, m[r.runId].applicationId, m[r.runId].runIndex)
  }

  /** When nothing is awaited any more every run of the batch has reported. */
  lemma AllReported(b: Batch, m: RunIndexMap, arrivals: seq<Arrival>, events: map<string, RunResult>,
                    tagged: seq<Tagged>)
    requires DistinctApplications(b) && Waiting(b, [], arrivals, events) && Indexed(m, b, |b.cvs|, 0)
    requires |tagged| == |arrivals|
    requires forall k :: 0 <= k < |arrivals| ==>
        arrivals[k].result.runId in m && tagged[k] == Tag(m, arrivals[k].result)
    ensures CompleteResults(b, tagged, events)
  {
    hide RunIds, ResultsOf, Indexed, TagFits, DistinctApplications, WaitsFor;
    AllArrived(b, arrivals);
    ResultsOfMembers(arrivals);
    forall k | 0 <= k < |tagged| ensures TagFits(b, tagged[k]) {
      LookupSucceeds(m, b, arrivals[k].result.runId);
    }
    forall id | id in RunIds(b) ensures exists k :: 0 <= k < |tagged| && tagged[k].result.runId == id {
      var k :| 0 <= k < |arrivals| && arrivals[k].result.runId == id;
      assert tagged[k].result.runId == id;
    }
  }

  /** Records every dispatch, sending one event for each. */
  method RecordDispatches(b: Batch, progress: ProgressRecord, ids: seq<string>, t0: Time, t1: Time)
    returns (eventSequence: int, log: seq<LiveEvent>)
    requires progress.Valid() && progress.View() == InitialProgress(b, t0)
    modifies progress, progress.Parts()
    ensures State(progress.View(), eventSequence, {}, log) == DispatchAll(Start(b, t0), ids, t1)
  {
    hide RecordDispatched, InitialProgress, BuildEvent;
    eventSequence, log := 0, [];
    for k := 0 to |ids|
      invariant State(progress.View(), eventSequence, {}, log) == DispatchAll(Start(b, t0), ids[..k], t1)
    {
      progress.RecordDispatchedRun(ids[k], t1);
      eventSequence := eventSequence + 1;
      log := log + [BuildEvent(RunDispatched, progress.View(), t1, eventSequence, Some(ids[k]))];
      assert ids[..k + 1][..k] == ids[..k];
    }
    assert ids[..|ids|] == ids;
  }

  /** One turn of the result loop, after the wait. */
  method HandleResult(progress: ProgressRecord, sequence: int, announced: set<string>, log: seq<LiveEvent>,
                      applicationId: string, runResult: RunResult, occurredAt: Time)
    returns (sequence': int, announced': set<string>, log': seq<LiveEvent>)
    requires progress.Valid()
    modifies progress, progress.Parts()
    ensures State(progress.View(), sequence', announced', log') ==
      OnResult(State(old(progress.View()), sequence, announced, log), applicationId, runResult, occurredAt)
  {
    hide RecordResult, BuildEvent, IsApplicationTerminal, Orchestration.FindApplication, TerminalRunKind;
    progress.RecordRunResult(runResult, occurredAt);
    announced' := announced;
    sequence' := sequence + 1;
    log' := log + [BuildEvent(TerminalRunKind(runResult.status), progress.View(), occurredAt, sequence',
        Some(runResult.runId))];
    var application := progress.FindApplication(applicationId);
    if application.Some? && IsApplicationTerminal(application.value.runs[..]) && applicationId !in announced {
      announced' := announced + {applicationId};
      sequence' := sequence' + 1;
      log' := log' + [BuildEvent(ApplicationCompleted, progress.View(), occurredAt, sequence',
          FirstRunId(application.value.View()))];
    }
  }

  lemma NothingYet(b: Batch, waits: seq<Wait>, events: map<string, RunResult>)
    requires |waits| == |RunIds(b)| && Distinct(waits) && WaitsFor(waits, b)
    ensures Waiting(b, waits, [], events)
  {
  }

  /** Waits until every run was heard from, taking results in whatever order they come. */
  method CollectResults(b: Batch, progress: ProgressRecord, waits: seq<Wait>, runIndexMap: RunIndexMap,
                        events: map<string, RunResult>,
                        sequence: int, log: seq<LiveEvent>, ghost t0: Time, ghost t1: Time, clock: nat -> Time)
    returns (sequence': int, log': seq<LiveEvent>, ghost announced: set<string>, results: seq<RunResult>,
        ghost arrivals: seq<Arrival>)
    requires DistinctApplications(b) && HasEvents(b, events)
    requires |waits| == |RunIds(b)| && Distinct(waits) && WaitsFor(waits, b)
    requires Indexed(runIndexMap, b, |b.cvs|, 0)
    requires progress.Valid() && State(progress.View(), sequence, {}, log) == DispatchAll(Start(b, t0), RunIds(b), t1)
    modifies progress, progress.Parts()
    ensures Waiting(b, [], arrivals, events)
    ensures |results| == |arrivals| && forall k :: 0 <= k < |results| ==> results[k] == arrivals[k].result
    ensures State(progress.View(), sequence', announced, log') == AtLoopHead(b, t0, t1, arrivals)
  {
    hide *;
    var pending, emitted := waits, {};
    sequence', log', results, arrivals := sequence, log, [], [];
    NothingYet(b, waits, events);
    LoopStart(b, t0, t1, events);
    while pending != []
      invariant progress.Valid() && Indexed(runIndexMap, b, |b.cvs|, 0)
      invariant Waiting(b, pending, arrivals, events) && ValidArrivals(b, arrivals)
      invariant |results| == |arrivals| && forall k :: 0 <= k < |results| ==> results[k] == arrivals[k].result
      invariant State(progress.View(), sequence', emitted, log') == AtLoopHead(b, t0, t1, arrivals)
      decreases |pending|
    {
      var k :| 0 <= k < |pending|;
      var completed := pending[k];
      var occurredAt := clock(|results|);
      TakeOne(b, pending, arrivals, events, completed, occurredAt);
      ShorterWithout(pending, completed);
      pending := Without(pending, completed);
      var runResult := events[Awaited(b, completed)];
      results := results + [runResult];
      LookupSucceeds(runIndexMap, b, runResult.runId);
      LoopHeadStep(b, t0, t1, arrivals, events, Arrival(runResult, occurredAt), pending);
      arrivals := arrivals + [Arrival(runResult, occurredAt)];
      var applicationId := runIndexMap[runResult.runId].applicationId;
      sequence', emitted, log' := HandleResult(progress, sequence', emitted, log', applicationId, runResult,
          occurredAt);
    }
    announced := emitted;
  }

  lemma ShorterWithout(pending: seq<Wait>, w: Wait)
    requires w in pending
    ensures |Without(pending, w)| < |pending|
  {
    if pending[0] != w {
      ShorterWithout(pending[1..], w);
    } else {
      NotLonger(pending[1..], w);
    }
  }

  lemma NotLonger(pending: seq<Wait>, w: Wait)
    ensures |Without(pending, w)| <= |pending|
  {
  }

  lemma LoopStart(b: Batch, t0: Time, t1: Time, events: map<string, RunResult>)
    ensures ValidArrivals(b, []) && AtLoopHead(b, t0, t1, []) == DispatchAll(Start(b, t0), RunIds(b), t1)
  {
  }

  /** The final status, and the batch's own event unless its projection fails. */
  method CloseBatch(progress: ProgressRecord, sequence: int, ghost announced: set<string>, log: seq<LiveEvent>,
                    late: Option<string>, finish: Time)
    returns (log': seq<LiveEvent>)
    requires progress.Valid()
    modifies progress
    ensures var last := OnFinished(State(old(progress.View()), sequence, announced, log), finish);
      progress.View() == last.progress && log' == if late.Some? then log else last.log
  {
    hide IsCancelledBatch, BuildEvent;
    var cancelled := IsCancelledBatch(progress.View().apps);
    progress.status := if cancelled then "cancelled" else "completed";
    progress.lastUpdatedAt := finish;
    assert progress.View() == FinalProgress(old(progress.View()), finish);
    log' := log;
    if late.None? {
      log' := log + [BuildEvent(if cancelled then BatchCancelled else BatchCompleted, progress.View(), finish,
          sequence + 1, None)];
    }
  }

  /** Runs one batch to its end. The events are the payloads raised for its runs; they are
      taken up in whatever order they come. Staging the prompt or one of the dispatches may
      fail and end the orchestration before it records anything; and the projection of the
      last event may fail when the document is already stored. The clock gives the
      orchestrator's readings of the time. */
  method BatchOrchestrator(b: Batch, events: map<string, RunResult>, store: ResultContainer, blobs: Blobs,
                           ties: nat -> bool,
                           failure: Option<string>, late: Option<string>,
                           start: Time, dispatched: Time, clock: nat -> Time, finish: Time)
    returns (progress: ProgressRecord, log: seq<LiveEvent>, outcome: Outcome<ResultDoc>, ghost arrivals: seq<Arrival>)
    requires b.runCount >= 1
    requires failure.None? ==> DistinctApplications(b) && HasEvents(b, events)
    modifies store
    ensures fresh(progress)
    // a failing start leaves the record as it was built, and nothing stored
    ensures failure.Some? ==>
      && outcome == Raised(failure.value) && store.documents == old(store.documents)
      && progress.View() == InitialProgress(b, start) && log == [] && arrivals == []
    // otherwise every run was waited for, and heard from once
    ensures ValidArrivals(b, arrivals) && (failure.None? ==> |arrivals| == |b.cvs| * b.runCount)
    ensures forall k :: 0 <= k < |arrivals| ==>
      arrivals[k].result.runId in events && arrivals[k].result == events[arrivals[k].result.runId]
    // and the document depends on the results and not on their order
    ensures failure.None? ==>
      Ended(BuildDocument(b, events, blobs, ties), late, outcome, b.batchId, old(store.documents), store.documents)
    // the final record and the events sent out
    ensures failure.None? ==>
      var head := AtLoopHead(b, start, dispatched, arrivals);
      var last := if BuildDocument(b, events, blobs, ties).Done? then OnFinished(head, finish) else head;
      progress.View() == last.progress && log == if late.Some? then head.log else last.log
  {
    hide InitialProgress, RunIdsFrom, RunIdOf, DocumentOf, AtLoopHead, DispatchAll, OnFinished, Indexed;
    hide WaitsFor, BuildDocument, AllRunsListed, CompleteResults, HasEvents, RunIds;
    progress := new ProgressRecord(b, start);
    if failure.Some? {
      log, outcome, arrivals := [], Raised(failure.value), [];
      return;
    }
    var ids, waits, runIndexMap := PlanDispatch(b);
    var sequence, events0 := RecordDispatches(b, progress, ids, start, dispatched);
    var results;
    ghost var announced;
    sequence, log, announced, results, arrivals :=
      CollectResults(b, progress, waits, runIndexMap, events, sequence, events0, start, dispatched, clock);
    forall k | 0 <= k < |results| ensures results[k].runId in runIndexMap {
      LookupSucceeds(runIndexMap, b, arrivals[k].result.runId);
    }
    var tagged := seq(|results|, k requires 0 <= k < |results| && results[k].runId in runIndexMap =>
                        Tag(runIndexMap, results[k]));
    AllReported(b, runIndexMap, arrivals, events, tagged);
    FinalisationPartitions(b, tagged, events, blobs, ties);
    RunIdsExactly(b);
    outcome := FinalizeBatch(store, b.batchId, b.cvs, tagged, blobs, ties);
    if outcome.Raised? {
      return;
    }
    log := CloseBatch(progress, sequence, announced, log, late, finish);
    if late.Some? {
      outcome := Raised(late.value);
    }
  }

  /** How an orchestration that got to finalisation ends: the document is stored when there
      is one, and returned unless the last projection fails. */
  ghost predicate Ended(built: Outcome<ResultDoc>, late: Option<string>, outcome: Outcome<ResultDoc>, batchId: string,
                        before: map<string, ResultDoc>, after: map<string, ResultDoc>)
  {
    match built
    case Raised(_) => outcome == built && after == before
    case Done(doc) =>
      && after == before[batchId := doc]
      && outcome == if late.Some? then Raised(late.value) else built
  }
}
