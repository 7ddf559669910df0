/** What the delivery protocol guarantees over all its behaviours. */
module DeliveryTheorems {
  import opened Options
  import opened Contracts
  import opened Delivery

  /** The event names a run of the batch it was raised for, carries that run's id, and is
      the one of the delivery that won the run's marker. */
  ghost predicate WellRaised(batches: Batches, s: State, r: RaisedEvent) {
    && OwnedBy(batches, r.runId, r.batchId)
    && r.event.runId == r.runId
    && r.runId in s.markers && s.markers[r.runId] == r.winner
    && r.winner < |s.accepted| && r.event == s.accepted[r.winner]
  }

  /** At most one event per run is ever raised, under any interleaving of the two intake
      paths, redelivery, repeated dispatch, replay and crashes, and it is the right one.
      Handlers in processes without an account are among those interleaved. */
  lemma AtMostOnce(batches: Batches, steps: seq<Step>)
    requires WellNamed(batches) && After(batches, steps).Some?
    ensures var s := After(batches, steps).value;
      && (forall k, l :: 0 <= k < l < |s.raised| ==> s.raised[k].runId != s.raised[l].runId)
      && (forall k :: 0 <= k < |s.raised| ==> WellRaised(batches, s, s.raised[k]))
  {
    Always(batches, steps);
    var s := After(batches, steps).value;
    hide After, OwnedBy, HandlerFits, MarkerFits, ReceivedFits;
    forall k | 0 <= k < |s.raised| ensures WellRaised(batches, s, s.raised[k]) {
      assert RaisedFits(s, s.raised[k]);
      assert OwnedBy(batches, s.raised[k].runId, s.index[s.raised[k].runId]);
    }
    forall k, l | 0 <= k < l < |s.raised| ensures s.raised[k].runId != s.raised[l].runId {
      assert WellRaised(batches, s, s.raised[k]) && WellRaised(batches, s, s.raised[l]);
    }
  }

  /** The branch of the claim that protects nothing is out of reach: who gets to claim has
      an account, because the lookup before it found something. */
  lemma UnprotectedClaimUnreachable(batches: Batches, steps: seq<Step>, h: nat)
    requires WellNamed(batches) && After(batches, steps).Some?
    requires Enabled(batches, After(batches, steps).value, Claim(h))
    ensures After(batches, steps).value.handlers[h].account
  {
    Always(batches, steps);
    assert HandlerFits(After(batches, steps).value, h);
  }

  // ---- every marker's fate -----------------------------------------------------------------------------

  ghost predicate RaisedFor(s: State, id: string) {
    exists k :: 0 <= k < |s.raised| && s.raised[k].runId == id
  }

  ghost predicate InFlight(s: State, id: string) {
    id in s.markers && Holds(s, s.markers[id])
  }

  ghost predicate Lost(s: State, id: string) {
    id in s.markers && s.markers[id] in s.crashed
  }

  lemma RaisedByWinner(batches: Batches, s: State, id: string)
    requires Inv(batches, s) && id in s.markers
    ensures RaisedFor(s, id) <==> HasRaised(s, s.markers[id])
  {
    hide IndexFits, ReceivedFits, HandlerFits;
    if RaisedFor(s, id) {
      var k :| 0 <= k < |s.raised| && s.raised[k].runId == id;
      assert RaisedFits(s, s.raised[k]);
    }
    if HasRaised(s, s.markers[id]) {
      var k :| 0 <= k < |s.raised| && s.raised[k].winner == s.markers[id];
      assert RaisedFits(s, s.raised[k]);
      assert MarkerFits(s, id);
    }
  }

  /** A run whose marker was written has its event raised, or the winner still holds it, or
      the winner crashed before it could raise it: exactly one of these. Without a marker
      none of them. */
  lemma Fate(batches: Batches, steps: seq<Step>, id: string)
    requires WellNamed(batches) && After(batches, steps).Some?
    ensures var s := After(batches, steps).value;
      && (id in s.markers <==> RaisedFor(s, id) || InFlight(s, id) || Lost(s, id))
      && !(RaisedFor(s, id) && InFlight(s, id)) && !(RaisedFor(s, id) && Lost(s, id))
      && !(InFlight(s, id) && Lost(s, id))
  {
    Always(batches, steps);
    var s := After(batches, steps).value;
    hide After, IndexFits, ReceivedFits, HandlerFits;
    if id in s.markers {
      RaisedByWinner(batches, s, id);
      hide RaisedFor, HasRaised;
      assert MarkerFits(s, id);
    }
    RaisedIsMarked(batches, s, id);
  }

  lemma RaisedIsMarked(batches: Batches, s: State, id: string)
    requires Inv(batches, s)
    ensures RaisedFor(s, id) ==> id in s.markers
  {
    assert forall k :: 0 <= k < |s.raised| ==> RaisedFits(s, s.raised[k]);
  }

  /** A lost event stays lost: no later delivery of the run is let through. */
  lemma LostForGood(batches: Batches, steps: seq<Step>, n: nat, id: string)
    requires WellNamed(batches) && n <= |steps| && After(batches, steps).Some?
    requires After(batches, steps[..n]).Some? && Lost(After(batches, steps[..n]).value, id)
    ensures Lost(After(batches, steps).value, id) && !RaisedFor(After(batches, steps).value, id)
  {
    AlwaysGrows(batches, steps, n);
    Fate(batches, steps, id);
    hide After, RaisedFor;
  }

  // ---- exactly once -----------------------------------------------------------------------------------

  /** Some delivery for the run got as far as trying to claim it. */
  ghost predicate Handled(batches: Batches, steps: seq<Step>, id: string) {
    exists n :: ClaimedAt(batches, steps, id, n)
  }

  ghost predicate ClaimedAt(batches: Batches, steps: seq<Step>, id: string, n: int) {
    && 0 <= n < |steps| && steps[n].Claim? && After(batches, steps[..n]).Some?
    && var s := After(batches, steps[..n]).value;
       steps[n].h in s.handlers && s.handlers[steps[n].h].event.runId == id
  }

  lemma PrefixPossible(batches: Batches, steps: seq<Step>, n: nat)
    requires n < |steps| && After(batches, steps).Some?
    ensures After(batches, steps[..n]).Some? && Enabled(batches, After(batches, steps[..n]).value, steps[n])
    ensures After(batches, steps[..n + 1]) == Some(Do(batches, After(batches, steps[..n]).value, steps[n]))
  {
    hide Do, Enabled, Init;
    var front := steps[..|steps| - 1];
    if n == |front| {
      assert steps[..n] == front && steps[..n + 1] == steps;
    } else {
      assert front[..n] == steps[..n] && front[..n + 1] == steps[..n + 1];
      PrefixPossible(batches, front, n);
    }
  }

  lemma HandledIsMarked(batches: Batches, steps: seq<Step>, id: string)
    requires WellNamed(batches) && After(batches, steps).Some? && Handled(batches, steps, id)
    ensures id in After(batches, steps).value.markers
  {
    hide After, Inv, WellNamed, DoWriteIndex, DoQueue, DoLookup, DoRaise, DoReceive, DoStart, DoAcknowledge, DoCrash;
    var n :| ClaimedAt(batches, steps, id, n);
    PrefixPossible(batches, steps, n);
    AlwaysGrows(batches, steps, n + 1);
    UnprotectedClaimUnreachable(batches, steps[..n], steps[n].h);
    ClaimMarks(After(batches, steps[..n]).value, steps[n].h);
  }

  lemma ClaimMarks(s: State, h: nat)
    requires h in s.handlers && s.handlers[h].phase.LookedUp? && s.handlers[h].account
    ensures s.handlers[h].event.runId in DoClaim(s, h).markers
  {
  }

  ghost predicate OnlyRaisedAt(s: State, id: string, k: nat) {
    k < |s.raised| && s.raised[k].runId == id && forall l :: 0 <= l < |s.raised| && s.raised[l].runId == id ==> l == k
  }

  /** A run with a delivery handled has its event raised exactly once if and only if the
      marker's winner is not still holding it and did not crash while it did. Crashes at any
      other moment, and of any other handler, do no harm. */
  lemma ExactlyOnce(batches: Batches, steps: seq<Step>, id: string)
    requires WellNamed(batches) && After(batches, steps).Some? && Handled(batches, steps, id)
    ensures var s := After(batches, steps).value;
      (exists k: nat :: OnlyRaisedAt(s, id, k)) <==> !InFlight(s, id) && !Lost(s, id)
  {
    var s := After(batches, steps).value;
    HandledIsMarked(batches, steps, id);
    Fate(batches, steps, id);
    AtMostOnce(batches, steps);
    hide After, WellRaised, InFlight, Lost;
    if RaisedFor(s, id) {
      var k: nat :| k < |s.raised| && s.raised[k].runId == id;
      assert OnlyRaisedAt(s, id, k);
    }
  }

  /** A crash does harm only to a handler between claiming and raising. */
  ghost predicate HarmlessAt(batches: Batches, steps: seq<Step>, n: nat) {
    n < |steps| && steps[n].Crash? && After(batches, steps[..n]).Some? ==>
      !Holds(After(batches, steps[..n]).value, steps[n].h)
  }

  lemma {:induction false} HarmlessCrashesLoseNothing(batches: Batches, steps: seq<Step>)
    requires After(batches, steps).Some? && forall n: nat :: HarmlessAt(batches, steps, n)
    ensures forall id :: !Lost(After(batches, steps).value, id)
    ensures After(batches, steps).value.crashed == {}
  {
    hide Do, Enabled;
    if steps != [] {
      var front, last := steps[..|steps| - 1], steps[|steps| - 1];
      forall n: nat ensures HarmlessAt(batches, front, n) {
        assert HarmlessAt(batches, steps, n);
        assert n < |front| ==> front[..n] == steps[..n];
      }
      HarmlessCrashesLoseNothing(batches, front);
      assert HarmlessAt(batches, steps, |front|);
      OnlyHoldersAreLost(batches, After(batches, front).value, last);
    }
  }

  lemma OnlyHoldersAreLost(batches: Batches, s: State, step: Step)
    requires Enabled(batches, s, step) && (step.Crash? ==> !Holds(s, step.h))
    ensures Do(batches, s, step).crashed == s.crashed
  {
    hide Delivery.EventOf, Intake.HttpEvent, RunIdOf, DoQueue, CanAnswer;
    if IsQueueStep(step) {
      QueueTouches(s, step);
    }
  }

  // ---- no reply is unknown -------------------------------------------------------------------------------

  /** The index of a run is written before the run is sent, and is never changed: whatever
      the engine replies to, at any later time, is found to belong to its own batch. */
  lemma NoReplyUnknown(batches: Batches, steps: seq<Step>, n: nat, h: nat)
    requires WellNamed(batches) && n <= |steps| && After(batches, steps).Some?
    requires After(batches, steps[..n]).Some?
    requires Enabled(batches, After(batches, steps).value, Lookup(h))
    requires var handler := After(batches, steps).value.handlers[h];
      handler.account && handler.event.runId in After(batches, steps[..n]).value.sent
    ensures var handler := Do(batches, After(batches, steps).value, Lookup(h)).handlers[h];
      handler.phase.LookedUp? && OwnedBy(batches, handler.event.runId, handler.phase.batchId)
  {
    hide After, OwnedBy, DoWriteIndex, DoQueue, DoClaim, DoRaise, DoReceive, DoStart, DoAcknowledge, DoCrash;
    Always(batches, steps);
    AlwaysGrows(batches, steps, n);
    hide HandlerFits, MarkerFits, RaisedFits, ReceivedFits, Once;
  }

  /** The engine never sees a run that is not indexed, neither on its queue nor among the
      dead letters. */
  lemma QueuedIsIndexed(batches: Batches, steps: seq<Step>, id: string)
    requires WellNamed(batches) && After(batches, steps).Some?
    ensures var s := After(batches, steps).value;
      id in s.runs || id in s.runsDlq ==> id in s.sent && id in s.index && OwnedBy(batches, id, s.index[id])
  {
    Always(batches, steps);
  }

  // ---- what the orchestrator receives -----------------------------------------------------------------------

  /** Each wait of a batch is either still open or was answered by the one event raised for
      its run; and of two waits for the same run at most one is ever answered. */
  lemma ReceivedOnce(batches: Batches, steps: seq<Step>, w: Wait)
    requires WellNamed(batches) && After(batches, steps).Some? && IsWaitOf(batches, w)
    ensures var s := After(batches, steps).value;
      && (w in s.waiting <==> w !in s.received)
      && (w in s.received ==>
           && OnlyRaisedAt(s, AwaitedRun(batches, w), s.received[w])
           && s.raised[s.received[w]].batchId == w.batchId
           && s.raised[s.received[w]].event.runId == AwaitedRun(batches, w))
      && (w in s.received ==>
           forall v :: IsWaitOf(batches, v) && v != w && AwaitedRun(batches, v) == AwaitedRun(batches, w) ==>
               v in s.waiting)
  {
    Always(batches, steps);
    AtMostOnce(batches, steps);
    var s := After(batches, steps).value;
    hide After, OwnedBy, HandlerFits, MarkerFits, RaisedFits, Once, IndexFits, AwaitedRun, IsWaitOf;
    if w in s.received {
      var k := s.received[w];
      assert AnsweredBy(batches, s, w, k) && WellRaised(batches, s, s.raised[k]);
      assert OnlyRaisedAt(s, AwaitedRun(batches, w), k);
      assert forall v :: v in s.received ==> AnsweredBy(batches, s, v, s.received[v]);
    }
  }
}
