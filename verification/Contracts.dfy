/** The payloads exchanged between the API, the orchestrator and the engine. */
module Contracts {
  import opened Options
  import RunNaming

  type Time = string

  datatype Artifact = Artifact(name: string, blobUri: string, sha256: Option<string>)

  /** One run's result, in the shape the orchestrator consumes. */
  datatype RunResult = RunResult(
    runId: string,
    status: string,
    durationMs: int,
    tokensPrompt: int,
    tokensCompletion: int,
    errorMessage: Option<string>,
    correlationId: string,
    traceparent: Option<string>,
    artifacts: Option<seq<Artifact>>)

  datatype Cv = Cv(applicationId: string, documentId: string)

  datatype Batch = Batch(batchId: string, jobId: string, cvs: seq<Cv>, runCount: nat)

  /** One wait of an orchestration: it makes one for each CV and run index, so two CVs with
      the same application id give two waits for the same run id. */
  datatype Wait = Wait(batchId: string, cv: nat, runIndex: nat)

  /** `x or []`. */
  function ArtifactsOf(r: RunResult): seq<Artifact> {
    if r.artifacts.Some? then r.artifacts.value else []
  }

  predicate IsWaitIn(b: Batch, w: Wait) {
    w.cv < |b.cvs| && w.runIndex < b.runCount
  }

  /** The run id a wait names in the event it waits for. */
  function Awaited(b: Batch, w: Wait): string
    requires IsWaitIn(b, w)
  {
    RunIdOf(b, w.cv, w.runIndex)
  }

  function RunIdOf(b: Batch, i: nat, j: nat): (id: string)
    requires i < |b.cvs|
    ensures id != ""
  {
    RunNaming.MintRunId(b.batchId, b.cvs[i].applicationId, j)
  }

  /** The run ids of one CV, by index. */
  function Row(b: Batch, i: nat): (row: seq<string>)
    requires i < |b.cvs|
    ensures |row| == b.runCount && forall j :: 0 <= j < b.runCount ==> row[j] == RunIdOf(b, i, j)
  {
    seq(b.runCount, j requires 0 <= j < b.runCount => RunIdOf(b, i, j))
  }

  /** The run ids of the CVs from the i-th on, in dispatch order. */
  function RunIdsFrom(b: Batch, i: nat): seq<string>
    requires i <= |b.cvs|
    decreases |b.cvs| - i
  {
    if i == |b.cvs| then [] else Row(b, i) + RunIdsFrom(b, i + 1)
  }

  function RunIds(b: Batch): seq<string> {
    RunIdsFrom(b, 0)
  }

  /** Nothing in the API enforces this; several results below need it. */
  ghost predicate DistinctApplications(b: Batch) {
    forall i, j :: 0 <= i < j < |b.cvs| ==> b.cvs[i].applicationId != b.cvs[j].applicationId
  }

  ghost predicate Distinct<T>(s: seq<T>) {
    forall i, j :: 0 <= i < j < |s| ==> s[i] != s[j]
  }

  ghost predicate IsRunOf(b: Batch, id: string, i: nat, j: nat) {
    i < |b.cvs| && j < b.runCount && id == RunIdOf(b, i, j)
  }

  lemma {:induction false} RunIdsMembers(b: Batch, i: nat, id: string)
    requires i <= |b.cvs|
    ensures id in RunIdsFrom(b, i) <==> exists k, j :: i <= k && IsRunOf(b, id, k, j)
    decreases |b.cvs| - i
  {
    if i < |b.cvs| {
      RunIdsMembers(b, i + 1, id);
      var here := Row(b, i);
      if id in here {
        var j :| 0 <= j < |here| && here[j] == id;
        assert IsRunOf(b, id, i, j);
      }
      forall k: nat, j: nat | i <= k && IsRunOf(b, id, k, j) ensures id in RunIdsFrom(b, i) {
        if k == i {
          assert here[j] == id;
        }
      }
    }
  }

  lemma {:induction false} RunIdsCount(b: Batch, i: nat)
    requires i <= |b.cvs|
    ensures |RunIdsFrom(b, i)| == (|b.cvs| - i) * b.runCount
    decreases |b.cvs| - i
  {
    if i < |b.cvs| {
      RunIdsCount(b, i + 1);
      assert (|b.cvs| - i) * b.runCount == (|b.cvs| - (i + 1)) * b.runCount + b.runCount;
    }
  }

  /** A batch has one run id per application and index, runCount times the number of CVs. */
  lemma RunIdsExactly(b: Batch)
    ensures forall id :: id in RunIds(b) <==> exists i, j :: IsRunOf(b, id, i, j)
    ensures |RunIds(b)| == |b.cvs| * b.runCount
  {
    forall id ensures id in RunIds(b) <==> exists i, j :: IsRunOf(b, id, i, j) {
      RunIdsMembers(b, 0, id);
    }
    RunIdsCount(b, 0);
  }

  /** With distinct applications a run id names one place only. */
  lemma RunPlaceUnique(b: Batch, id: string, i: nat, j: nat, k: nat, l: nat)
    requires DistinctApplications(b) && IsRunOf(b, id, i, j) && IsRunOf(b, id, k, l)
    ensures i == k && j == l
  {
    RunNaming.RunIdInjectiveInBatch(b.batchId, b.cvs[i].applicationId, j, b.cvs[k].applicationId, l);
  }

  lemma {:induction false} RunIdsDistinctFrom(b: Batch, i: nat)
    requires i <= |b.cvs| && DistinctApplications(b)
    ensures Distinct(RunIdsFrom(b, i))
    decreases |b.cvs| - i
  {
    if i < |b.cvs| {
      RunIdsDistinctFrom(b, i + 1);
      var here := Row(b, i);
      forall j, l | 0 <= j < l < |here| ensures here[j] != here[l] {
        if here[j] == here[l] {
          RunPlaceUnique(b, here[j], i, j, i, l);
        }
      }
      forall j | 0 <= j < |here| ensures here[j] !in RunIdsFrom(b, i + 1) {
        RunIdsMembers(b, i + 1, here[j]);
        forall k, l | i + 1 <= k && IsRunOf(b, here[j], k, l) ensures false {
          RunPlaceUnique(b, here[j], i, j, k, l);
        }
      }
    }
  }

  lemma RunIdsDistinct(b: Batch)
    requires DistinctApplications(b)
    ensures Distinct(RunIds(b))
  {
    RunIdsDistinctFrom(b, 0);
  }

  /** Two CVs with the same application id give a list of waits with a repeated run id. */
  lemma DuplicateApplicationRepeatsRunId(b: Batch, i: nat, k: nat, j: nat)
    requires i < k < |b.cvs| && j < b.runCount && b.cvs[i].applicationId == b.cvs[k].applicationId
    ensures !Distinct(RunIds(b))
  {
    RepeatFrom(b, 0, i, k, j);
  }

  lemma {:induction false} RepeatFrom(b: Batch, n: nat, i: nat, k: nat, j: nat)
    requires n <= i < k < |b.cvs| && j < b.runCount && b.cvs[i].applicationId == b.cvs[k].applicationId
    ensures !Distinct(RunIdsFrom(b, n))
    decreases i - n
  {
    var here, rest := Row(b, n), RunIdsFrom(b, n + 1);
    assert RunIdsFrom(b, n) == here + rest;
    if n == i {
      assert IsRunOf(b, here[j], k, j);
      RunIdsMembers(b, n + 1, here[j]);
    } else {
      RepeatFrom(b, n + 1, i, k, j);
    }
    hide RunIdOf, RunIdsFrom, Row;
    RepeatAppends(here, rest);
  }

  /** A list repeats an element when one part does, or when the parts share one. */
  lemma RepeatAppends(here: seq<string>, rest: seq<string>)
    requires !Distinct(rest) || exists j :: 0 <= j < |here| && here[j] in rest
    ensures !Distinct(here + rest)
  {
    var all := here + rest;
    if !Distinct(rest) {
      var x, y :| 0 <= x < y < |rest| && rest[x] == rest[y];
      assert all[|here| + x] == all[|here| + y];
    } else {
      var j :| 0 <= j < |here| && here[j] in rest;
      var m :| 0 <= m < |rest| && rest[m] == here[j];
      assert all[j] == all[|here| + m];
    }
  }
}
