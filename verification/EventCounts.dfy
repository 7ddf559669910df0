/** The counters and times an orchestration's events carry. */
module EventCounts {
  import opened Options
  import opened Contracts
  import opened Progress
  import opened Reachability
  import opened Orchestration
  import opened ProgressTheorems
  import opened EventTheorems

  /** How many events are of one of these kinds. */
  function Kinds(log: seq<LiveEvent>, kinds: set<EventKind>): nat {
    if log == [] then 0
    else Kinds(log[..|log| - 1], kinds) + if log[|log| - 1].kind in kinds then 1 else 0
  }

  const RUN_ENDS := {RunCompleted, RunFailed, RunCancelled}

  /** An event carries the number of dispatches and of results told of so far, itself
      included; and the number of applications announced so far, together with the one
      announced right after it. */
  ghost predicate CarriesCounts(log: seq<LiveEvent>, k: nat)
    requires k < |log|
  {
    && log[k].runsDispatched == Kinds(log[..k + 1], {RunDispatched})
    && log[k].runsCompleted == Kinds(log[..k + 1], RUN_ENDS)
    && log[k].cvsCompleted == Announcements(if k + 2 <= |log| then log[..k + 2] else log)
  }

  /** A dispatch is told of at the time of all dispatches, a result at its own. */
  ghost predicate CarriesTime(e: LiveEvent, t1: Time, arrivals: seq<Arrival>) {
    && (e.kind == RunDispatched ==> e.occurredAt == t1)
    && (e.kind in RUN_ENDS ==>
         exists a :: 0 <= a < |arrivals| && e.runId == Some(arrivals[a].result.runId) && e.occurredAt == arrivals[a].at)
  }

  ghost predicate WellTold(log: seq<LiveEvent>, t1: Time, arrivals: seq<Arrival>) {
    forall k :: 0 <= k < |log| ==>
      CarriesCounts(log, k) && CarriesTime(log[k], t1, arrivals) && log[k].status == "running"
  }

  lemma KindsMore(log: seq<LiveEvent>, e: LiveEvent, kinds: set<EventKind>)
    ensures Kinds(log + [e], kinds) == Kinds(log, kinds) + if e.kind in kinds then 1 else 0
  {
    assert (log + [e])[..|log|] == log;
  }

  lemma AnnouncementsMore(log: seq<LiveEvent>, e: LiveEvent)
    ensures Announcements(log + [e]) == Announcements(log) + if e.kind == ApplicationCompleted then 1 else 0
  {
    assert (log + [e])[..|log|] == log;
  }

  /** An event that is no announcement leaves what the earlier ones carry right, and so does
      an announcement that follows it. */
  lemma EarlierStay(log: seq<LiveEvent>, e: LiveEvent, more: seq<LiveEvent>, k: nat)
    requires k < |log| && CarriesCounts(log, k) && e.kind != ApplicationCompleted
    ensures CarriesCounts(log + [e] + more, k)
  {
    hide Kinds, Announcements;
    var all := log + [e] + more;
    assert all[..k + 1] == log[..k + 1];
    if k + 2 <= |log| {
      assert all[..k + 2] == log[..k + 2];
    } else {
      assert all[..k + 2] == log + [e];
      AnnouncementsMore(log, e);
    }
  }

  lemma CountsKept(log: seq<LiveEvent>, e: LiveEvent, p: Snapshot)
    requires e.kind != ApplicationCompleted && forall k :: 0 <= k < |log| ==> CarriesCounts(log, k)
    requires Shows(e, p) && p.cvsCompleted == Announcements(log)
    requires p.runsDispatched == Kinds(log, {RunDispatched}) + if e.kind == RunDispatched then 1 else 0
    requires p.runsCompleted == Kinds(log, RUN_ENDS) + if e.kind in RUN_ENDS then 1 else 0
    ensures forall k :: 0 <= k < |log| + 1 ==> CarriesCounts(log + [e], k)
  {
    hide Kinds, Announcements;
    var all := log + [e];
    forall k | 0 <= k < |all| ensures CarriesCounts(all, k) {
      if k < |log| {
        EarlierStay(log, e, [], k);
        assert all + [] == all;
      } else {
        assert all[..k + 1] == all;
        KindsMore(log, e, {RunDispatched});
        KindsMore(log, e, RUN_ENDS);
        AnnouncementsMore(log, e);
      }
    }
  }

  ghost predicate Shows(e: LiveEvent, p: Snapshot) {
    && e.runsDispatched == p.runsDispatched && e.runsCompleted == p.runsCompleted
    && e.cvsCompleted == p.cvsCompleted && e.status == p.status
  }

  lemma Built(kind: EventKind, p: Snapshot, t: Time, n: int, runId: Option<string>)
    ensures var e := BuildEvent(kind, p, t, n, runId);
      Shows(e, p) && e.kind == kind && e.occurredAt == t && e.runId == runId
  {
  }

  /** With an announcement behind it, an event already counts what is announced. */
  lemma CountsKeptAnnouncing(log: seq<LiveEvent>, e: LiveEvent, f: LiveEvent, p: Snapshot)
    requires e.kind in RUN_ENDS && f.kind == ApplicationCompleted
    requires forall k :: 0 <= k < |log| ==> CarriesCounts(log, k)
    requires Shows(e, p) && Shows(f, p) && p.cvsCompleted == Announcements(log) + 1
    requires p.runsDispatched == Kinds(log, {RunDispatched}) && p.runsCompleted == Kinds(log, RUN_ENDS) + 1
    ensures forall k :: 0 <= k < |log| + 2 ==> CarriesCounts(log + [e] + [f], k)
  {
    hide Kinds, Announcements;
    var mid, all := log + [e], log + [e] + [f];
    KindsMore(log, e, {RunDispatched});
    KindsMore(log, e, RUN_ENDS);
    KindsMore(mid, f, {RunDispatched});
    KindsMore(mid, f, RUN_ENDS);
    AnnouncementsMore(log, e);
    AnnouncementsMore(mid, f);
    forall k | 0 <= k < |all| ensures CarriesCounts(all, k) {
      if k < |log| {
        EarlierStay(log, e, [f], k);
      } else {
        assert k == |log| ==> all[..k + 1] == mid && all[..k + 2] == all;
        assert k == |log| + 1 ==> all[..k + 1] == all;
      }
    }
  }

  // ---- whole runs -------------------------------------------------------------------------------------

  /** What the counters of the record are, by the events sent. */
  ghost predicate Level(s: State) {
    && s.progress.runsDispatched == Kinds(s.log, {RunDispatched})
    && s.progress.runsCompleted == Kinds(s.log, RUN_ENDS)
    && s.progress.cvsCompleted == Announcements(s.log)
  }

  lemma LevelAfter(s: State, s': State, e: LiveEvent)
    requires Level(s) && s'.log == s.log + [e] && e.kind != ApplicationCompleted && Shows(e, s'.progress)
    requires s'.progress.cvsCompleted == s.progress.cvsCompleted
    requires s'.progress.runsDispatched == s.progress.runsDispatched + if e.kind == RunDispatched then 1 else 0
    requires s'.progress.runsCompleted == s.progress.runsCompleted + if e.kind in RUN_ENDS then 1 else 0
    requires forall k :: 0 <= k < |s.log| ==> CarriesCounts(s.log, k)
    ensures Level(s') && forall k :: 0 <= k < |s'.log| ==> CarriesCounts(s'.log, k)
  {
    hide Kinds, Announcements;
    KindsMore(s.log, e, {RunDispatched});
    KindsMore(s.log, e, RUN_ENDS);
    AnnouncementsMore(s.log, e);
    CountsKept(s.log, e, s'.progress);
  }

  lemma LevelAnnouncing(s: State, s': State, e: LiveEvent, f: LiveEvent)
    requires Level(s) && s'.log == s.log + [e] + [f] && e.kind in RUN_ENDS && f.kind == ApplicationCompleted
    requires Shows(e, s'.progress) && Shows(f, s'.progress)
    requires s'.progress.cvsCompleted == s.progress.cvsCompleted + 1
    requires s'.progress.runsDispatched == s.progress.runsDispatched
    requires s'.progress.runsCompleted == s.progress.runsCompleted + 1
    requires forall k :: 0 <= k < |s.log| ==> CarriesCounts(s.log, k)
    ensures Level(s') && forall k :: 0 <= k < |s'.log| ==> CarriesCounts(s'.log, k)
  {
    hide Kinds, Announcements;
    KindsMore(s.log, e, {RunDispatched});
    KindsMore(s.log, e, RUN_ENDS);
    KindsMore(s.log + [e], f, {RunDispatched});
    KindsMore(s.log + [e], f, RUN_ENDS);
    AnnouncementsMore(s.log, e);
    AnnouncementsMore(s.log + [e], f);
    CountsKeptAnnouncing(s.log, e, f, s'.progress);
  }

  lemma {:induction false} DispatchesTold(b: Batch, t0: Time, t1: Time, k: nat)
    requires b.runCount >= 1 && DistinctApplications(b) && k <= |RunIds(b)|
    ensures var s := DispatchAll(Start(b, t0), RunIds(b)[..k], t1); Level(s) && WellTold(s.log, t1, [])
  {
    hide RunIdsFrom, Kinds, InStep, Describes;
    var s := DispatchAll(Start(b, t0), RunIds(b)[..k], t1);
    if k == 0 {
      assert Kinds([], {RunDispatched}) == 0 == Kinds([], RUN_ENDS) by { NoKinds(); }
    } else {
      var ids, front := RunIds(b)[..k], RunIds(b)[..k - 1];
      assert ids[..k - 1] == front && ids[k - 1] == RunIds(b)[k - 1];
      var before := DispatchAll(Start(b, t0), front, t1);
      DispatchesTold(b, t0, t1, k - 1);
      DispatchesInStep(b, t0, t1, k - 1);
      DispatchesInStep(b, t0, t1, k);
      hide InitialProgress, Announcements, DispatchAll, Dispatched, RunIds;
      assert s == OnDispatched(before, ids[k - 1], t1) by { LastDispatch(Start(b, t0), ids, t1); }
      OneDispatch(before, ids[k - 1], t1);
    }
  }

  lemma LastDispatch(s: State, ids: seq<string>, t: Time)
    requires ids != []
    ensures DispatchAll(s, ids, t) == OnDispatched(DispatchAll(s, ids[..|ids| - 1], t), ids[|ids| - 1], t)
  {
  }

  lemma NoKinds()
    ensures Kinds([], {RunDispatched}) == 0 == Kinds([], RUN_ENDS)
  {
  }

  lemma OneDispatch(s: State, id: string, t1: Time)
    requires Level(s) && WellTold(s.log, t1, [])
    requires OnDispatched(s, id, t1).progress.runsDispatched == s.progress.runsDispatched + 1
    ensures var s' := OnDispatched(s, id, t1); Level(s') && WellTold(s'.log, t1, [])
  {
    var s' := OnDispatched(s, id, t1);
    var e := BuildEvent(RunDispatched, s'.progress, t1, s.sequence + 1, Some(id));
    Built(RunDispatched, s'.progress, t1, s.sequence + 1, Some(id));
    OnlyDispatched(s.progress, id, t1);
    assert s'.log == s.log + [e];
    hide Level, CarriesCounts, BuildEvent, RecordDispatched, OnDispatched;
    assert Level(s') && forall k :: 0 <= k < |s'.log| ==> CarriesCounts(s'.log, k) by {
      assert s'.progress == RecordDispatched(s.progress, id, t1) by { DispatchRecords(s, id, t1); }
      LevelAfter(s, s', e);
    }
  }

  lemma DispatchRecords(s: State, id: string, t: Time)
    ensures OnDispatched(s, id, t).progress == RecordDispatched(s.progress, id, t)
  {
  }

  lemma OnlyDispatched(p: Snapshot, id: string, t: Time)
    ensures RecordDispatched(p, id, t).cvsCompleted == p.cvsCompleted
    ensures RecordDispatched(p, id, t).runsCompleted == p.runsCompleted
    ensures RecordDispatched(p, id, t).runsDispatched != p.runsDispatched ==>
      RecordDispatched(p, id, t).status == "running"
  {
  }

  lemma {:induction false} HeadTold(b: Batch, t0: Time, t1: Time, arrivals: seq<Arrival>)
    requires b.runCount >= 1 && DistinctApplications(b) && ValidArrivals(b, arrivals)
    ensures var s := AtLoopHead(b, t0, t1, arrivals); Level(s) && WellTold(s.log, t1, arrivals)
  {
    hide RunIdsFrom, Kinds, Describes, EachToldOnce;
    if arrivals == [] {
      assert RunIds(b)[..|RunIds(b)|] == RunIds(b);
      DispatchesTold(b, t0, t1, |RunIds(b)|);
    } else {
      var n := |arrivals| - 1;
      var front, last := arrivals[..n], arrivals[n];
      HeadTold(b, t0, t1, front);
      LoopHeadsInStep(b, t0, t1, front);
      LoopHeadsInStep(b, t0, t1, arrivals);
      CachedCvs(b, t0, t1, front);
      CachedCvs(b, t0, t1, arrivals);
      var s, s' := AtLoopHead(b, t0, t1, front), AtLoopHead(b, t0, t1, arrivals);
      var id := OwnerOf(b, last.result.runId);
      assert s' == OnResult(s, id, last.result, last.at);
      hide AtLoopHead, StateAfter, Announcements, RunIds, OwnerOf, TerminalIds, DispatchAll, CollectAll;
      LaterTold(s.log, t1, arrivals);
      OneResult(s, id, last.result, last.at, t1, arrivals);
    }
  }

  lemma CachedCvs(b: Batch, t0: Time, t1: Time, arrivals: seq<Arrival>)
    requires b.runCount >= 1 && DistinctApplications(b) && ValidArrivals(b, arrivals)
    ensures var s := AtLoopHead(b, t0, t1, arrivals); s.progress.cvsCompleted == Announcements(s.log)
    ensures AtLoopHead(b, t0, t1, arrivals).progress.status == "running" || RunIds(b) == []
  {
    hide AtLoopHead, StateAfter, RunIdsFrom, AppMatches, AppCachesAgree, Announcements, TerminalIds, EachToldOnce;
    LoopHeadsInStep(b, t0, t1, arrivals);
    ResultPhase(b, t0, t1, arrivals);
    if RunIds(b) != [] {
      assert RunIds(b)[0] in IdSet(RunIds(b));
    }
  }

  lemma LaterTold(log: seq<LiveEvent>, t1: Time, arrivals: seq<Arrival>)
    requires arrivals != [] && WellTold(log, t1, arrivals[..|arrivals| - 1])
    ensures WellTold(log, t1, arrivals)
  {
    hide CarriesCounts;
    var front := arrivals[..|arrivals| - 1];
    forall k | 0 <= k < |log| ensures CarriesTime(log[k], t1, arrivals) {
      assert CarriesTime(log[k], t1, front);
      if log[k].kind in RUN_ENDS {
        var a :| 0 <= a < |front| && log[k].runId == Some(front[a].result.runId) && log[k].occurredAt == front[a].at;
        assert arrivals[a] == front[a];
      }
    }
  }

  lemma OneResult(s: State, id: string, r: RunResult, t: Time, t1: Time, arrivals: seq<Arrival>)
    requires Level(s) && WellTold(s.log, t1, arrivals) && arrivals != [] && arrivals[|arrivals| - 1] == Arrival(r, t)
    requires var p := OnResult(s, id, r, t).progress;
      && p.cvsCompleted == Announcements(OnResult(s, id, r, t).log) && p.status == "running"
      && p.runsDispatched == s.progress.runsDispatched && p.runsCompleted == s.progress.runsCompleted + 1
    ensures var s' := OnResult(s, id, r, t); Level(s') && WellTold(s'.log, t1, arrivals)
  {
    hide RecordResult, Announcements, Kinds, FindApplication, IsApplicationTerminal, CarriesCounts, BuildEvent;
    hide TerminalRunKind;
    var s', p := OnResult(s, id, r, t), OnResult(s, id, r, t).progress;
    var kind := TerminalRunKind(r.status);
    EndKind(r.status);
    var e := BuildEvent(kind, p, t, s.sequence + 1, Some(r.runId));
    Built(kind, p, t, s.sequence + 1, Some(r.runId));
    assert CarriesTime(e, t1, arrivals) by { assert arrivals[|arrivals| - 1].at == t; }
    AnnouncementsMore(s.log, e);
    if |s'.log| == |s.log| + 2 {
      var f := s'.log[|s.log| + 1];
      var app := FindApplication(p.apps, id);
      Built(ApplicationCompleted, p, t, s.sequence + 2, FirstRunId(app.value));
      assert s'.log == s.log + [e] + [f];
      AnnouncementsMore(s.log + [e], f);
      LevelAnnouncing(s, s', e, f);
    } else {
      assert s'.log == s.log + [e];
      LevelAfter(s, s', e);
    }
  }

  lemma EndKind(status: string)
    ensures TerminalRunKind(status) in RUN_ENDS
  {
  }

  /** Every event of a finished batch carries the counts of what was told of up to then, and
      the batch's own event its final status. */
  lemma EventsCarryCounts(b: Batch, t0: Time, t1: Time, arrivals: seq<Arrival>, t: Time)
    requires b.runCount >= 1 && DistinctApplications(b) && ValidArrivals(b, arrivals)
    ensures var head, s := AtLoopHead(b, t0, t1, arrivals), OnFinished(AtLoopHead(b, t0, t1, arrivals), t);
      && WellTold(head.log, t1, arrivals)
      && |s.log| == |head.log| + 1 && s.log[..|head.log|] == head.log
      && s.log[|head.log|].status == s.progress.status && s.log[|head.log|].occurredAt == t
      && s.log[|head.log|].runId.None?
      && forall k :: 0 <= k < |s.log| ==> CarriesCounts(s.log, k)
  {
    hide AtLoopHead, CarriesCounts, Kinds, Announcements, IsCancelledBatch, BuildEvent, CarriesTime;
    HeadTold(b, t0, t1, arrivals);
    var head := AtLoopHead(b, t0, t1, arrivals);
    var s := OnFinished(head, t);
    var kind := if IsCancelledBatch(s.progress.apps) then BatchCancelled else BatchCompleted;
    Built(kind, s.progress, t, head.sequence + 1, None);
    LevelAfter(head, s, s.log[|head.log|]);
  }
}
