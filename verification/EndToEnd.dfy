/** From deliveries to the answer a client gets. */
module EndToEnd {
  import opened Options
  import opened Contracts
  import opened Progress
  import opened Reachability
  import opened Finalize
  import opened Verdicts
  import opened Delivery
  import opened DeliveryTheorems
  import CvScoring
  import Orchestration
  import Orchestrator
  import StatusApi

  // ---- the host that runs orchestrations -------------------------------------------------------------

  class FunctionsHost {
    var history: map<string, StatusApi.Instance>
    const store: ResultContainer

    constructor ()
      ensures history == map[] && fresh(store) && store.documents == map[]
      ensures Coherent()
    {
      history := map[];
      store := new ResultContainer();
    }

    /** A completed instance has stored the document it returned. */
    ghost predicate Coherent()
      reads this, store
    {
      StatusApi.Coherent(history, store.documents)
    }

    function Platform(account: bool): StatusApi.Platform
      reads this, store
    {
      StatusApi.Platform(history, store.documents, account)
    }

    /** Starts a batch unless it is known, and runs it to its end. An orchestration that
        raises ends as failed. */
    method RunBatch(b: Batch, events: map<string, RunResult>, blobs: Blobs, ties: nat -> bool,
                    failure: Option<string>, late: Option<string>,
                    start: Time, dispatched: Time, clock: nat -> Time, finish: Time)
      requires Coherent() && b.runCount >= 1
      requires failure.None? ==> DistinctApplications(b) && HasEvents(b, events)
      modifies this, store
      ensures Coherent()
      ensures old(b.batchId in history) ==> history == old(history) && store.documents == old(store.documents)
      ensures old(b.batchId !in history) ==>
        && b.batchId in history && history == old(history)[b.batchId := history[b.batchId]]
        && (failure.Some? ==> history[b.batchId].runtimeStatus.Failed? && store.documents == old(store.documents))
        && (failure.None? ==> forall account :: RanToEnd(Platform(account), b, events, blobs, ties, late))
        && OthersKept(b.batchId, old(store.documents), store.documents)
    {
      hide BuildDocument, Orchestration.AtLoopHead, Orchestration.OnFinished, ValidArrivals, InitialProgress, HasEvents;
      if b.batchId in history {
        return;
      }
      var progress, log, outcome, arrivals :=
        Orchestrator.BatchOrchestrator(b, events, store, blobs, ties, failure, late, start, dispatched, clock, finish);
      var instance :=
        if outcome.Done? then StatusApi.Instance(StatusApi.Completed, Some(progress.View()),
            Some(StatusApi.Document(outcome.value)))
        else StatusApi.Instance(StatusApi.Failed, Some(progress.View()), Some(StatusApi.Text(outcome.error, None)));
      history := history[b.batchId := instance];
    }

    /** Runs a batch that a client terminates: while it still waits for results, or when its
        document is stored but not returned yet. If it fails to build the document it has
        failed by then. */
    method RunUntilTerminated(b: Batch, events: map<string, RunResult>, blobs: Blobs, ties: nat -> bool,
                              afterStoring: bool, reason: string,
                              start: Time, dispatched: Time, clock: nat -> Time, finish: Time)
      requires Coherent() && b.runCount >= 1 && b.batchId !in history
      requires afterStoring ==> DistinctApplications(b) && HasEvents(b, events)
      modifies this, store
      ensures Coherent()
      ensures b.batchId in history && history == old(history)[b.batchId := history[b.batchId]]
      ensures !afterStoring ==> history[b.batchId].runtimeStatus.Terminated? && store.documents == old(store.documents)
      ensures afterStoring ==>
        match BuildDocument(b, events, blobs, ties)
        case Done(doc) =>
          history[b.batchId].runtimeStatus.Terminated? && store.documents == old(store.documents)[b.batchId := doc]
        case Raised(_) => history[b.batchId].runtimeStatus.Failed? && store.documents == old(store.documents)
    {
      hide BuildDocument, Orchestration.AtLoopHead, Orchestration.OnFinished, ValidArrivals, HasEvents;
      var status, customStatus, output := StatusApi.Terminated, None, StatusApi.Text(reason, None);
      if afterStoring {
        var progress, log, outcome, arrivals :=
          Orchestrator.BatchOrchestrator(b, events, store, blobs, ties, None, None, start, dispatched, clock, finish);
        customStatus := Some(progress.View());
        if outcome.Raised? {
          status, output := StatusApi.Failed, StatusApi.Text(outcome.error, None);
        }
      }
      history := history[b.batchId := StatusApi.Instance(status, customStatus, Some(output))];
    }

    /** Clears the history of an instance; its document stays. */
    method Purge(batchId: string)
      requires Coherent()
      modifies this
      ensures Coherent()
      ensures Platform(true) == StatusApi.Purged(old(Platform(true)), batchId)
    {
      history := history - {batchId};
    }

    /** Deliveries to answer: the events a finished behaviour of the protocol left the
        orchestration with are run, and the client asks. */
    method ServeDelivered(ghost batches: Batches, ghost steps: seq<Step>, b: Batch, events: map<string, RunResult>,
                          blobs: Blobs, ties: nat -> bool, late: Option<string>, account: bool,
                          start: Time, dispatched: Time, clock: nat -> Time, finish: Time)
      returns (answer: StatusApi.Answer)
      requires Coherent() && b.batchId !in history && b.runCount >= 1
      requires WellNamed(batches) && After(batches, steps).Some? && b.batchId in batches && batches[b.batchId] == b
      requires OpenWaits(After(batches, steps).value, b) == {}
          && events == ReceivedEvents(After(batches, steps).value, b)
      modifies this, store
      ensures Coherent()
      ensures FromWinners(After(batches, steps).value, b, events)
      ensures answer == StatusApi.GetBatchStatus(Platform(account), b.batchId)
      ensures Told(b, events, blobs, late, answer)
    {
      hide BuildDocument, HasEvents, After, Told, StatusApi.GetBatchStatus;
      CompleteEvents(batches, steps, b);
      FinishedIsDistinct(batches, steps, b);
      RunBatch(b, events, blobs, ties, None, late, start, dispatched, clock, finish);
      AnswerAfterRun(Platform(account), b, events, blobs, ties, late);
      answer := StatusApi.GetBatchStatus(Platform(account), b.batchId);
    }
  }

  // ---- what the client is told ------------------------------------------------------------------------

  ghost predicate OthersKept(batchId: string, before: map<string, ResultDoc>, after: map<string, ResultDoc>) {
    forall id :: id != batchId ==> (id in after <==> id in before) && (id in after ==> after[id] == before[id])
  }

  /** The batch was run to its end: completed with the document it stored, or failed, be it
      after storing it. */
  ghost predicate RanToEnd(p: StatusApi.Platform, b: Batch, events: map<string, RunResult>, blobs: Blobs,
                           ties: nat -> bool,
                           late: Option<string>)
    requires HasEvents(b, events)
  {
    && b.batchId in p.history
    && var s := p.history[b.batchId];
       match BuildDocument(b, events, blobs, ties)
       case Done(doc) =>
         && b.batchId in p.documents && p.documents[b.batchId] == doc
         && (late.None? ==> s.runtimeStatus == StatusApi.Completed && s.output == Some(StatusApi.Document(doc)))
         && (late.Some? ==> s.runtimeStatus == StatusApi.Failed && s.output == Some(StatusApi.Text(late.value, None)))
       case Raised(e) => s.runtimeStatus == StatusApi.Failed && s.output == Some(StatusApi.Text(e, None))
  }

  ghost predicate EveryApplicationScored(b: Batch, events: map<string, RunResult>, blobs: Blobs)
    requires HasEvents(b, events)
  {
    forall i :: 0 <= i < |b.cvs| ==> StatusApi.HasScoredRun(ExpectedRuns(b, i, events), blobs)
  }

  /** What the two conditions come down to: every application has a run that succeeded with a
      numeric score in its output, and no output of a succeeded run has must-haves that
      cannot be evaluated. */
  lemma ConditionsTell(b: Batch, events: map<string, RunResult>, blobs: Blobs)
    requires HasEvents(b, events)
    ensures EveryApplicationScored(b, events, blobs) <==>
      forall i :: 0 <= i < |b.cvs| ==> AnyScores(ExpectedRuns(b, i, events), blobs)
    ensures Finalisable(b, events, blobs) <==>
      forall i, j :: 0 <= i < |b.cvs| && 0 <= j < b.runCount ==> RunEvaluable(ExpectedRuns(b, i, events)[j], blobs)
  {
    hide HasEvents, AnyScores, RunEvaluable, RunReadable, StatusApi.HasScoredRun;
    forall i | 0 <= i < |b.cvs|
      ensures StatusApi.HasScoredRun(ExpectedRuns(b, i, events), blobs) <==>
        AnyScores(ExpectedRuns(b, i, events), blobs)
    {
      StatusApi.AnyScored(ExpectedRuns(b, i, events), blobs);
    }
    forall i, j | 0 <= i < |b.cvs| && 0 <= j < b.runCount
      ensures RunReadable(ExpectedRuns(b, i, events)[j], blobs) <==> RunEvaluable(ExpectedRuns(b, i, events)[j], blobs)
    {
      RunsEvaluable(ExpectedRuns(b, i, events)[j], blobs);
    }
  }

  /** What a client gets to see of an aggregate. */
  ghost predicate ShowsAggregate(shown: StatusApi.AggregatedOutcome, a: CvScoring.Aggregate) {
    && a.finalScore.Some? && shown.finalScore == a.finalScore && shown.variance == a.variance
    && shown.finalDecision == Some(a.finalDecision) && shown.mustHaveResult == Some(a.mustHaveResult)
    && shown.sourceArtifacts == a.sourceArtifacts && shown.runsCount == a.runsCount
  }

  /** What a client gets to see of one application: its own runs with what their results
      said, the first complaint among them, and an aggregate that says what the outputs of
      these runs amount to. */
  ghost predicate ServedBlock(cv: StatusApi.CvResult, b: Batch, i: nat, events: map<string, RunResult>, blobs: Blobs)
    requires i < |b.cvs| && HasEvents(b, events)
  {
    && cv.applicationId == b.cvs[i].applicationId && cv.documentId == b.cvs[i].documentId
    && RunsTell(cv.runs, b, i, events)
    && ErrorTells(cv.error, cv.runs)
    && cv.aggregated.Some?
    && exists a :: AggregateTells(Some(a), cv.runs, blobs) && ShowsAggregate(cv.aggregated.value, a)
  }

  /** In terms of the results and their outputs alone: the client gets the result when every
      application has a scored run and all must-haves can be evaluated; it is told of a
      contract error when only the former fails, and of a failed batch when the latter does
      or the last projection failed. */
  ghost predicate Told(b: Batch, events: map<string, RunResult>, blobs: Blobs, late: Option<string>,
                       answer: StatusApi.Answer)
    requires HasEvents(b, events)
  {
    if !Finalisable(b, events, blobs) || late.Some? then
      && answer.Response? && answer.status == "failed" && answer.result.None?
      && answer.error.Some? && answer.error.value.code == "ORCHESTRATION_FAILED"
    else if EveryApplicationScored(b, events, blobs) then
      && answer.Response? && answer.status == "completed" && answer.error.None?
      && answer.result.Some? && |answer.result.value| == |b.cvs|
      && forall i :: 0 <= i < |b.cvs| ==> ServedBlock(answer.result.value[i], b, i, events, blobs)
    else
      exists i: nat :: StatusApi.RefusedFor(b, events, blobs, i, answer)
  }

  lemma AnswerAfterRun(p: StatusApi.Platform, b: Batch, events: map<string, RunResult>, blobs: Blobs, ties: nat -> bool,
                       late: Option<string>)
    requires HasEvents(b, events) && RanToEnd(p, b, events, blobs, ties, late)
    ensures Told(b, events, blobs, late, StatusApi.GetBatchStatus(p, b.batchId))
    ensures var answer := StatusApi.GetBatchStatus(p, b.batchId);
      answer.Response? && answer.status == "completed" <==>
        Finalisable(b, events, blobs) && EveryApplicationScored(b, events, blobs) && late.None?
  {
    hide BuildDocument, HasEvents, ExpectedRuns, Finalisable, StatusApi.HasScoredRun;
    hide StatusApi.FirstUnscored, StatusApi.HasSignalledRun, StatusApi.Publish, StatusApi.Answered;
    FinalisationSucceeds(b, events, blobs, ties);
    var s := p.history[b.batchId];
    if BuildDocument(b, events, blobs, ties).Done? && late.None? {
      CompletedAnswer(b, events, blobs, ties, s.customStatus);
    } else {
      FailedAnswer(s);
    }
  }

  lemma CompletedAnswer(b: Batch, events: map<string, RunResult>, blobs: Blobs, ties: nat -> bool,
                        progress: Option<Snapshot>)
    requires HasEvents(b, events) && BuildDocument(b, events, blobs, ties).Done?
    ensures var doc := BuildDocument(b, events, blobs, ties).value;
      var answer := StatusApi.Answered(StatusApi.Instance(StatusApi.Completed, progress,
          Some(StatusApi.Document(doc))));
      && Told(b, events, blobs, None, answer)
      && (answer.Response? ==> answer.status == "completed")
      && (answer.Response? <==> EveryApplicationScored(b, events, blobs))
  {
    hide BuildDocument, HasEvents, ExpectedRuns, Finalisable, StatusApi.HasScoredRun, StatusApi.RefusedFor;
    hide StatusApi.Publish, StatusApi.Answered;
    FinalisationSucceeds(b, events, blobs, ties);
    StatusApi.Servable(b, events, blobs, ties, progress);
    hide ServedBlock;
    if EveryApplicationScored(b, events, blobs) {
      PublishedBlocks(b, events, blobs, ties);
    }
  }

  /** A batch whose last projection failed reads as failed, but once its history is purged
      the client is told what a completed batch would have told it. */
  lemma PurgeAfterLateFailure(p: StatusApi.Platform, b: Batch, events: map<string, RunResult>, blobs: Blobs,
                              ties: nat -> bool, e: string)
    requires HasEvents(b, events) && RanToEnd(p, b, events, blobs, ties, Some(e))
    requires p.account && Finalisable(b, events, blobs)
    ensures StatusApi.GetBatchStatus(p, b.batchId).Response?
        && StatusApi.GetBatchStatus(p, b.batchId).status == "failed"
    ensures Told(b, events, blobs, None, StatusApi.GetBatchStatus(StatusApi.Purged(p, b.batchId), b.batchId))
  {
    hide BuildDocument, HasEvents, Finalisable, EveryApplicationScored, StatusApi.Publish, StatusApi.FirstComplaint;
    AnswerAfterRun(p, b, events, blobs, ties, Some(e));
    FinalisationSucceeds(b, events, blobs, ties);
    CompletedAnswer(b, events, blobs, ties, None);
    StatusApi.AnswerFromContainer(StatusApi.Purged(p, b.batchId), b.batchId);
  }

  lemma FailedAnswer(s: StatusApi.Instance)
    requires s.runtimeStatus == StatusApi.Failed
    ensures var answer := StatusApi.Answered(s);
      && answer.Response? && answer.status == "failed" && answer.result.None?
      && answer.error.Some? && answer.error.value.code == "ORCHESTRATION_FAILED"
  {
  }

  /** Publishing a block of a document keeps what it says. */
  lemma PublishedBlock(doc: ResultDoc, b: Batch, i: nat, events: map<string, RunResult>, blobs: Blobs)
    requires i < |b.cvs| == |doc.cvs| && HasEvents(b, events) && BlockTells(doc.cvs[i], b, i, events, blobs)
    requires StatusApi.Complaint(StatusApi.Publish(doc)[i]).None?
    ensures ServedBlock(StatusApi.Publish(doc)[i], b, i, events, blobs)
  {
    hide HasEvents, RunsTell, ErrorTells, AggregateTells;
    assert AggregateTells(Some(doc.cvs[i].aggregated.value), doc.cvs[i].runs, blobs);
  }

  lemma PublishedBlocks(b: Batch, events: map<string, RunResult>, blobs: Blobs, ties: nat -> bool)
    requires HasEvents(b, events) && BuildDocument(b, events, blobs, ties).Done?
    requires EveryApplicationScored(b, events, blobs)
    ensures var cvs := StatusApi.Publish(BuildDocument(b, events, blobs, ties).value);
      |cvs| == |b.cvs| && forall i :: 0 <= i < |b.cvs| ==> ServedBlock(cvs[i], b, i, events, blobs)
  {
    hide BuildDocument, HasEvents, ExpectedRuns, BlockTells, ServedBlock, StatusApi.HasScoredRun, StatusApi.Complaint;
    hide StatusApi.Publish;
    DocumentTells(b, events, blobs, ties);
    forall i | 0 <= i < |b.cvs|
      ensures ServedBlock(StatusApi.Publish(BuildDocument(b, events, blobs, ties).value)[i], b, i, events, blobs)
    {
      StatusApi.BlockComplaint(b, events, blobs, ties, i);
      PublishedBlock(BuildDocument(b, events, blobs, ties).value, b, i, events, blobs);
    }
  }

  // ---- from handled deliveries to complete events -------------------------------------------------------

  /** The waits of a batch that are still open. */
  function OpenWaits(s: State, b: Batch): set<Wait> {
    set w | w in s.waiting && w.batchId == b.batchId && w.cv < |b.cvs| && w.runIndex < b.runCount
  }

  ghost predicate OnlyReceives(steps: seq<Step>) {
    forall k :: 0 <= k < |steps| ==> steps[k].Receive?
  }

  ghost predicate Known(batches: Batches, b: Batch) {
    WellNamed(batches) && b.batchId in batches && batches[b.batchId] == b
  }

  /** The wait w was answered, by an event for this run. */
  ghost predicate HeardFrom(s: State, b: Batch, id: string, w: Wait) {
    && w in s.received && s.received[w] < |s.raised|
    && w.batchId == b.batchId && IsRunOf(b, id, w.cv, w.runIndex)
  }

  ghost function HeardEvent(s: State, b: Batch, id: string): RunResult
    requires exists w :: HeardFrom(s, b, id, w)
  {
    var w :| HeardFrom(s, b, id, w);
    s.raised[s.received[w]].event
  }

  /** The payloads the orchestration of a batch has received. */
  ghost function ReceivedEvents(s: State, b: Batch): map<string, RunResult> {
    map id | id in RunIds(b) && exists w :: HeardFrom(s, b, id, w) :: HeardEvent(s, b, id)
  }

  ghost predicate AllRaised(s: State, b: Batch) {
    forall id :: id in RunIds(b) ==> exists k: nat :: OnlyRaisedAt(s, id, k)
  }

  /** Every run of the batch has had a delivery handled, and the winner of none of them is
      still between claiming and raising, or crashed there. */
  ghost predicate AllDelivered(batches: Batches, steps: seq<Step>, b: Batch)
    requires After(batches, steps).Some?
  {
    var s := After(batches, steps).value;
    forall id :: id in RunIds(b) ==> Handled(batches, steps, id) && !InFlight(s, id) && !Lost(s, id)
  }

  lemma DeliveredIsRaised(batches: Batches, steps: seq<Step>, b: Batch)
    requires WellNamed(batches) && After(batches, steps).Some? && AllDelivered(batches, steps, b)
    ensures AllRaised(After(batches, steps).value, b)
  {
    hide After, InFlight, Lost, Handled;
    forall id | id in RunIds(b) ensures exists k: nat :: OnlyRaisedAt(After(batches, steps).value, id, k) {
      ExactlyOnce(batches, steps, id);
    }
  }

  /** An open wait whose event was raised can be answered next, application ids being distinct. */
  lemma CanReceive(batches: Batches, steps: seq<Step>, b: Batch, w: Wait, k: nat)
    requires Known(batches, b) && After(batches, steps).Some? && DistinctApplications(b)
    requires w in OpenWaits(After(batches, steps).value, b)
    requires OnlyRaisedAt(After(batches, steps).value, RunIdOf(b, w.cv, w.runIndex), k)
    ensures Enabled(batches, After(batches, steps).value, Receive(k, w))
    ensures var s, s' := After(batches, steps).value, Do(batches, After(batches, steps).value, Receive(k, w));
      s'.raised == s.raised && OpenWaits(s', b) == OpenWaits(s, b) - {w}
  {
    hide After, DoWriteIndex, DoQueue, DoStart, DoLookup, DoClaim, DoRaise, DoAcknowledge, DoCrash, Delivery.EventOf;
    hide RunIdOf;
    var s, id := After(batches, steps).value, RunIdOf(b, w.cv, w.runIndex);
    AtMostOnce(batches, steps);
    assert WellRaised(batches, s, s.raised[k]);
    assert IsRunOf(b, id, w.cv, w.runIndex);
    RunIdsExactly(b);
    OneOwner(batches, id, s.raised[k].batchId, b.batchId);
    hide WellNamed, RunIds, WellRaised;
    forall v | v in s.received ensures s.received[v] != k {
      AnsweredElsewhere(batches, steps, b, w, v);
    }
  }

  /** No event that answered another wait was for this one's run. */
  lemma AnsweredElsewhere(batches: Batches, steps: seq<Step>, b: Batch, w: Wait, v: Wait)
    requires Known(batches, b) && After(batches, steps).Some? && DistinctApplications(b)
    requires w in OpenWaits(After(batches, steps).value, b) && v in After(batches, steps).value.received
    ensures var s := After(batches, steps).value; s.received[v] < |s.raised|
    ensures var s := After(batches, steps).value;
      s.raised[s.received[v]].batchId == b.batchId ==> s.raised[s.received[v]].runId != RunIdOf(b, w.cv, w.runIndex)
  {
    Always(batches, steps);
    var s := After(batches, steps).value;
    hide After, RunIdOf, IndexFits, HandlerFits, MarkerFits, RaisedFits, Once;
    assert AnsweredBy(batches, s, v, s.received[v]) && v !in s.waiting;
    if s.raised[s.received[v]].batchId == b.batchId && s.raised[s.received[v]].runId == RunIdOf(b, w.cv, w.runIndex) {
      RunPlaceUnique(b, RunIdOf(b, w.cv, w.runIndex), w.cv, w.runIndex, v.cv, v.runIndex);
    }
  }

  /** Once every run's event is raised, the orchestration receives them all: one step for
      each wait that is still open. */
  lemma ReceivesAll(batches: Batches, steps: seq<Step>, b: Batch) returns (more: seq<Step>)
    requires Known(batches, b) && After(batches, steps).Some? && DistinctApplications(b)
    requires AllRaised(After(batches, steps).value, b)
    ensures After(batches, steps + more).Some? && OnlyReceives(more)
    ensures |more| == |OpenWaits(After(batches, steps).value, b)|
    ensures OpenWaits(After(batches, steps + more).value, b) == {}
    decreases |OpenWaits(After(batches, steps).value, b)|
  {
    hide Known, OnlyRaisedAt, Do, Enabled, After, RunIdOf;
    var s := After(batches, steps).value;
    if OpenWaits(s, b) == {} {
      more := [];
      assert steps + [] == steps;
    } else {
      var w :| w in OpenWaits(s, b);
      var id := RunIdOf(b, w.cv, w.runIndex);
      RunIdsExactly(b);
      assert IsRunOf(b, id, w.cv, w.runIndex);
      assert id in RunIds(b);
      hide OpenWaits, RunIds;
      var k: nat :| OnlyRaisedAt(s, id, k);
      CanReceive(batches, steps, b, w, k);
      OneMore(batches, steps, Receive(k, w));
      var s' := After(batches, steps + [Receive(k, w)]).value;
      StillRaised(s, s', b);
      var rest := ReceivesAll(batches, steps + [Receive(k, w)], b);
      more := [Receive(k, w)] + rest;
      assert steps + more == steps + [Receive(k, w)] + rest;
    }
  }

  lemma StillRaised(s: State, s': State, b: Batch)
    requires AllRaised(s, b) && s'.raised == s.raised
    ensures AllRaised(s', b)
  {
    forall id | id in RunIds(b) ensures exists k: nat :: OnlyRaisedAt(s', id, k) {
      var k: nat :| OnlyRaisedAt(s, id, k);
      assert OnlyRaisedAt(s', id, k);
    }
  }

  /** Two CVs with one application id: in every reachable state one of the waits they made
      is open, so the batch never ends. */
  lemma DuplicateNeverFinishes(batches: Batches, steps: seq<Step>, b: Batch, i: nat, k: nat)
    requires Known(batches, b) && After(batches, steps).Some? && b.runCount >= 1
    requires i < k < |b.cvs| && b.cvs[i].applicationId == b.cvs[k].applicationId
    ensures OpenWaits(After(batches, steps).value, b) != {}
  {
    var s, v, w := After(batches, steps).value, Wait(b.batchId, i, 0), Wait(b.batchId, k, 0);
    ReceivedOnce(batches, steps, v);
    ReceivedOnce(batches, steps, w);
    hide After;
    assert AwaitedRun(batches, v) == AwaitedRun(batches, w);
    assert v in OpenWaits(s, b) || w in OpenWaits(s, b);
  }

  lemma FinishedIsDistinct(batches: Batches, steps: seq<Step>, b: Batch)
    requires Known(batches, b) && After(batches, steps).Some? && b.runCount >= 1
    requires OpenWaits(After(batches, steps).value, b) == {}
    ensures DistinctApplications(b)
  {
    hide After, OpenWaits, Known;
    forall i, k | 0 <= i < k < |b.cvs| ensures b.cvs[i].applicationId != b.cvs[k].applicationId {
      if b.cvs[i].applicationId == b.cvs[k].applicationId {
        DuplicateNeverFinishes(batches, steps, b, i, k);
      }
    }
  }

  /** The orchestration can answer all its waits with steps of its own. */
  ghost predicate CanFinish(batches: Batches, steps: seq<Step>, b: Batch, more: seq<Step>) {
    OnlyReceives(more) && After(batches, steps + more).Some? && OpenWaits(After(batches, steps + more).value, b) == {}
  }

  /** With every run's event raised, the batch can end if and only if its application ids
      are distinct. */
  lemma FinishesExactlyWhenDistinct(batches: Batches, steps: seq<Step>, b: Batch)
    requires Known(batches, b) && After(batches, steps).Some? && b.runCount >= 1
    requires AllRaised(After(batches, steps).value, b)
    ensures (exists more :: CanFinish(batches, steps, b, more)) <==> DistinctApplications(b)
  {
    hide After, Known, AllRaised, OpenWaits, DistinctApplications;
    if DistinctApplications(b) {
      var more := ReceivesAll(batches, steps, b);
      assert CanFinish(batches, steps, b, more);
    }
    if more :| CanFinish(batches, steps, b, more) {
      FinishedIsDistinct(batches, steps + more, b);
    }
  }

  /** One event for every run, each the payload of the delivery that won the run's marker. */
  ghost predicate FromWinners(s: State, b: Batch, events: map<string, RunResult>) {
    && HasEvents(b, events)
    && forall id :: id in RunIds(b) ==>
      id in events && id in s.markers && s.markers[id] < |s.accepted| && events[id] == s.accepted[s.markers[id]]
  }

  /** What was received when no wait is open. */
  lemma CompleteEvents(batches: Batches, steps: seq<Step>, b: Batch)
    requires Known(batches, b) && After(batches, steps).Some?
    requires OpenWaits(After(batches, steps).value, b) == {}
    ensures FromWinners(After(batches, steps).value, b, ReceivedEvents(After(batches, steps).value, b))
  {
    hide After, WellNamed, RunIdOf;
    var s := After(batches, steps).value;
    var events := ReceivedEvents(s, b);
    RunIdsExactly(b);
    forall id | id in RunIds(b)
      ensures id in events && events[id].runId == id
      ensures id in s.markers && s.markers[id] < |s.accepted| && events[id] == s.accepted[s.markers[id]]
    {
      var i: nat, j: nat :| IsRunOf(b, id, i, j);
      HeardIsWinner(batches, steps, b, id, Wait(b.batchId, i, j));
      assert HeardFrom(s, b, id, Wait(b.batchId, i, j));
      var w :| HeardFrom(s, b, id, w) && HeardEvent(s, b, id) == s.raised[s.received[w]].event;
      HeardIsWinner(batches, steps, b, id, w);
    }
    hide RunIds, OpenWaits, ReceivedEvents;
    forall i, j | 0 <= i < |b.cvs| && 0 <= j < b.runCount ensures RunIdOf(b, i, j) in RunIds(b) {
      assert IsRunOf(b, RunIdOf(b, i, j), i, j);
    }
  }

  /** A wait that is not open was answered by the winner's payload. */
  lemma HeardIsWinner(batches: Batches, steps: seq<Step>, b: Batch, id: string, w: Wait)
    requires Known(batches, b) && After(batches, steps).Some?
    requires w.batchId == b.batchId && IsRunOf(b, id, w.cv, w.runIndex)
    requires w !in OpenWaits(After(batches, steps).value, b)
    ensures var s := After(batches, steps).value;
      && HeardFrom(s, b, id, w)
      && var event := s.raised[s.received[w]].event;
         event.runId == id && id in s.markers && s.markers[id] < |s.accepted| && event == s.accepted[s.markers[id]]
  {
    var s := After(batches, steps).value;
    AtMostOnce(batches, steps);
    ReceivedOnce(batches, steps, w);
    hide After, WellNamed, RunIdOf;
    assert WellRaised(batches, s, s.raised[s.received[w]]);
  }

  /** End to end: after any behaviour in which every run of the batch had a delivery handled
      and none was lost, whatever else was delivered, repeated, crashed, dead-lettered or
      replayed, the orchestration can receive what it waits for; and the client of the host
      that runs it is then told what the winning deliveries and their outputs call for. */
  lemma HandledBatchIsServed(batches: Batches, steps: seq<Step>, b: Batch)
    returns (more: seq<Step>, events: map<string, RunResult>)
    requires Known(batches, b) && After(batches, steps).Some? && DistinctApplications(b)
    requires AllDelivered(batches, steps, b)
    ensures CanFinish(batches, steps, b, more)
    ensures events == ReceivedEvents(After(batches, steps + more).value, b)
    ensures FromWinners(After(batches, steps + more).value, b, events)
    ensures forall p: StatusApi.Platform, blobs: Blobs, ties: nat -> bool, late: Option<string> ::
      RanToEnd(p, b, events, blobs, ties, late) ==> Told(b, events, blobs, late, StatusApi.GetBatchStatus(p, b.batchId))
  {
    hide After, AllDelivered, Told, RanToEnd, HasEvents, RunIds, StatusApi.GetBatchStatus;
    DeliveredIsRaised(batches, steps, b);
    more := ReceivesAll(batches, steps, b);
    CompleteEvents(batches, steps + more, b);
    events := ReceivedEvents(After(batches, steps + more).value, b);
    forall p: StatusApi.Platform, blobs: Blobs, ties: nat -> bool, late: Option<string> |
      RanToEnd(p, b, events, blobs, ties, late)
      ensures Told(b, events, blobs, late, StatusApi.GetBatchStatus(p, b.batchId))
    {
      AnswerAfterRun(p, b, events, blobs, ties, late);
    }
  }
}
