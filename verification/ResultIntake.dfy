/** The two intake handlers as they run, step by step, and the protocol steps they are. */
module ResultIntake {
  import opened Options
  import opened Json
  import opened Contracts
  import opened Intake
  import opened Delivery

  /** How a delivery ends: the body was not valid, the run not known, its marker already
      there, or the event was raised. */
  datatype Reply = Refused | Unknown | Duplicate | Delivered

  /** A handler that is never interrupted: all its steps up to raising. */
  function Uninterrupted(s: State, h: nat): State
    requires h in s.handlers && s.handlers[h].phase.Accepted?
  {
    var found := DoLookup(s, h);
    if !found.handlers[h].phase.LookedUp? then found
    else
      var claimed := DoClaim(found, h);
      if !claimed.handlers[h].phase.Claimed? then claimed else DoRaise(claimed, h)
  }

  class IntakeHost {
    const account: bool
    var index: map<string, string>
    var markers: map<string, nat>
    var raised: seq<RaisedEvent>

    constructor (account: bool)
      ensures this.account == account
      ensures index == map[] && markers == map[] && raised == []
    {
      this.account := account;
      index, markers, raised := map[], map[], [];
    }

    /** The stored state is that of the protocol. */
    ghost predicate Mirrors(s: State)
      reads this
    {
      index == s.index && markers == s.markers && raised == s.raised
    }

    method LookupBatchId(runId: string) returns (batchId: Option<string>)
      ensures batchId == if account && runId in index then Some(index[runId]) else None
    {
      if !account {
        return None;
      }
      batchId := if runId in index then Some(index[runId]) else None;
    }

    /** Creates the marker unless it exists; true for whoever created it. */
    method ClaimResultDelivery(runId: string, h: nat) returns (first: bool)
      modifies this`markers
      ensures first <==> !account || runId !in old(markers)
      ensures markers == if account && first then old(markers)[runId := h] else old(markers)
    {
      if !account {
        return true;
      }
      first := runId !in markers;
      if first {
        markers := markers[runId := h];
      }
    }

    /** Look up, claim, raise, with an early return after each of the first two. */
    method Deliver(event: RunResult, source: Option<Message>, h: nat, ghost s: State) returns (reply: Reply)
      requires Mirrors(s) && h == |s.accepted|
      modifies this
      ensures Mirrors(Uninterrupted(DoStart(s, account, event, source), h))
      ensures reply == if !account || event.runId !in s.index then Unknown else if event.runId in s.markers then
          Duplicate else Delivered
    {
      var batchId := LookupBatchId(event.runId);
      if batchId.None? {
        return Unknown;
      }
      var first := ClaimResultDelivery(event.runId, h);
      if !first {
        return Duplicate;
      }
      raised := raised + [RaisedEvent(batchId.value, event.runId, event, h)];
      reply := Delivered;
    }

    /** A message that is not valid is left to the broker, which will dead-letter it. */
    method SbResultHandler(m: Message, h: nat, ghost s: State) returns (reply: Reply)
      requires Mirrors(s) && h == |s.accepted|
      modifies this
      ensures reply.Refused? <==> Delivery.EventOf(m).None?
      ensures reply.Refused? ==> Mirrors(s)
      ensures !reply.Refused? ==> Mirrors(Uninterrupted(DoStart(s, account, Delivery.EventOf(m).value, Some(m)), h))
    {
      hide SbReport, DoStart, Uninterrupted, Canonical;
      if m.body.None? {
        return Refused;
      }
      var normalized := NormalizeCompletionPayload(m.body.value);
      if normalized.Raised? {
        return Refused;
      }
      var event := SbReport(normalized.value, m.carrier);
      if event.None? {
        return Refused;
      }
      reply := Deliver(event.value, Some(m), h, s);
    }

    method HttpPatchRun(runId: string, body: Option<Value>, carrier: Carrier, h: nat,
                        ghost s: State) returns (code: nat)
      requires Mirrors(s) && h == |s.accepted|
      modifies this
      ensures code in {202, 400, 404}
      ensures code == 400 <==> body.None? || HttpEvent(runId, body.value, carrier).None?
      ensures code == 404 <==>
        body.Some? && HttpEvent(runId, body.value, carrier).Some? && (!account || runId !in s.index)
      ensures code == 400 ==> Mirrors(s)
      ensures code != 400 ==> Mirrors(Uninterrupted(DoStart(s, account, HttpEvent(runId, body.value, carrier).value,
          None), h))
    {
      hide DoStart, Uninterrupted, Canonical, ParseReport, OptionalText;
      if runId == "" || body.None? {
        return 400;
      }
      var normalized := NormalizeCompletionPayload(body.value);
      if normalized.Raised? {
        return 400;
      }
      var event := HttpReport(runId, normalized.value, carrier);
      if event.None? {
        return 400;
      }
      var reply := Deliver(event.value, None, h, s);
      code := if reply.Unknown? then 404 else 202;
    }
  }

  /** Such a run of a handler is a sequence of at most three protocol steps, so all that
      holds of every behaviour holds of it. */
  lemma UninterruptedIsSteps(batches: Batches, steps: seq<Step>, h: nat) returns (more: seq<Step>)
    requires After(batches, steps).Some?
    requires h in After(batches, steps).value.handlers && After(batches, steps).value.handlers[h].phase.Accepted?
    ensures |more| <= 3 && After(batches, steps + more) == Some(Uninterrupted(After(batches, steps).value, h))
  {
    hide After, DoWriteIndex, DoQueue, DoStart, DoAcknowledge, DoCrash, DoReceive, Delivery.EventOf, HttpEvent;
    var s := After(batches, steps).value;
    var found := DoLookup(s, h);
    OneMore(batches, steps, Lookup(h));
    more := [Lookup(h)];
    if found.handlers[h].phase.LookedUp? {
      var claimed := DoClaim(found, h);
      OneMore(batches, steps + more, Claim(h));
      assert steps + more + [Claim(h)] == steps + (more + [Claim(h)]);
      more := more + [Claim(h)];
      if claimed.handlers[h].phase.Claimed? {
        OneMore(batches, steps + more, Raise(h));
        assert steps + more + [Raise(h)] == steps + (more + [Raise(h)]);
        more := more + [Raise(h)];
      }
    }
  }
}
