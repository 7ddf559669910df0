/** Where messages are over whole behaviours: none disappears by itself, none appears from nothing. */
module QueueTheorems {
  import opened Options
  import opened Contracts
  import opened Intake
  import opened Delivery

  function HowOften(steps: seq<Step>, kind: Step -> bool): nat {
    if steps == [] then 0
    else HowOften(steps[..|steps| - 1], kind) + if kind(steps[|steps| - 1]) then 1 else 0
  }

  // ---- the runs queue -----------------------------------------------------------------------------

  function Indexing(batches: Batches, id: string): Step -> bool {
    (s: Step) => s.WriteIndex? && IsWaitOf(batches, Wait(s.batchId, s.cv, s.runIndex))
                 && AwaitedRun(batches, Wait(s.batchId, s.cv, s.runIndex)) == id
  }

  function Sending(id: string): Step -> bool { (s: Step) => s == SendRun(id) }
  function Abandoning(id: string): Step -> bool { (s: Step) => s == AbandonDispatch(id) }
  function Finishing(id: string): Step -> bool { (s: Step) => s == EngineDone(id) }
  function CopyingRun(id: string): Step -> bool { (s: Step) => s == ReplayRun(id, false) }

  /** Each dispatch that wrote the index still has to send, has sent or was given up; and each
      copy of a run's message, those a failing replay made included, is in the queue, among
      its dead letters, or was taken by the engine. */
  lemma {:induction false} RunsAccounted(batches: Batches, steps: seq<Step>, id: string)
    requires After(batches, steps).Some?
    ensures var s := After(batches, steps).value;
      && s.dispatching[id] + HowOften(steps, Sending(id)) + HowOften(steps, Abandoning(id)) ==
           HowOften(steps, Indexing(batches, id))
      && s.runs[id] + s.runsDlq[id] + HowOften(steps, Finishing(id)) ==
           HowOften(steps, Sending(id)) + HowOften(steps, CopyingRun(id))
  {
    if steps != [] {
      var n := |steps| - 1;
      RunsAccounted(batches, steps[..n], id);
      DispatchingStep(batches, After(batches, steps[..n]).value, steps[n], id);
      RunsStep(batches, After(batches, steps[..n]).value, steps[n], id);
      hide Do, Enabled, Indexing, Sending, Abandoning, Finishing, CopyingRun, Init;
    }
  }

  function Bit(b: bool): nat {
    if b then 1 else 0
  }

  lemma DispatchingStep(batches: Batches, s: State, step: Step, id: string)
    requires Enabled(batches, s, step)
    ensures Do(batches, s, step).dispatching[id] + Bit(Sending(id)(step)) + Bit(Abandoning(id)(step)) ==
      s.dispatching[id] + Bit(Indexing(batches, id)(step))
  {
    hide HttpEvent, Delivery.EventOf, RunIdOf, CanAnswer;
  }

  lemma RunsStep(batches: Batches, s: State, step: Step, id: string)
    requires Enabled(batches, s, step)
    ensures var s' := Do(batches, s, step);
      s'.runs[id] + s'.runsDlq[id] + Bit(Finishing(id)(step)) ==
        s.runs[id] + s.runsDlq[id] + Bit(Sending(id)(step)) + Bit(CopyingRun(id)(step))
  {
    hide HttpEvent, Delivery.EventOf, CanAnswer;
    if step.SendRun? || step.EngineDone? || step.DeadLetterRun? || step.ReplayRun? {
      hide DoWriteIndex, DoStart, DoLookup, DoClaim, DoRaise, DoAcknowledge, DoCrash, DoReceive;
      match step
      case SendRun(r) =>
      case EngineDone(r) =>
      case DeadLetterRun(r) =>
      case ReplayRun(r, done) =>
    } else {
      RunsUntouched(batches, s, step);
      hide Do, Enabled;
    }
  }

  lemma RunsUntouched(batches: Batches, s: State, step: Step)
    requires Enabled(batches, s, step)
    requires !step.SendRun? && !step.EngineDone? && !step.DeadLetterRun? && !step.ReplayRun?
    ensures Do(batches, s, step).runs == s.runs && Do(batches, s, step).runsDlq == s.runsDlq
  {
    hide HttpEvent, Delivery.EventOf, CanAnswer, RunIdOf, IsPoison;
  }

  // ---- the results queue ------------------------------------------------------------------------------

  function Submitting(m: Message): Step -> bool { (s: Step) => s == Submit(m) }

  function CopyingResult(m: Message): Step -> bool {
    (s: Step) => s == ReplayResult(m, false) && !IsPoison(m.body)
  }

  function DroppingResult(m: Message): Step -> bool {
    (s: Step) => s == ReplayResult(m, true) && IsPoison(m.body)
  }

  /** A handler that was triggered by a copy of the message is done and takes one off. */
  predicate TakesOff(s: State, step: Step, m: Message) {
    step.Acknowledge? && step.h in s.handlers && s.handlers[step.h].source == Some(m) && m in s.results
  }

  function TakenOff(batches: Batches, steps: seq<Step>, m: Message): nat
    requires After(batches, steps).Some?
  {
    if steps == [] then 0
    else
      var n := |steps| - 1;
      TakenOff(batches, steps[..n], m) + Bit(TakesOff(After(batches, steps[..n]).value, steps[n], m))
  }

  /** Each copy of a result message that was submitted, or made by a failing replay, is in the
      queue, among its dead letters, was taken off by a handler that had finished, or was
      dropped as poison. So a message is delivered at least once unless it is poison. */
  lemma {:induction false} ResultsAccounted(batches: Batches, steps: seq<Step>, m: Message)
    requires After(batches, steps).Some?
    ensures var s := After(batches, steps).value;
      s.results[m] + s.resultsDlq[m] + TakenOff(batches, steps, m) + HowOften(steps, DroppingResult(m)) ==
        HowOften(steps, Submitting(m)) + HowOften(steps, CopyingResult(m))
  {
    if steps != [] {
      var n := |steps| - 1;
      ResultsAccounted(batches, steps[..n], m);
      ResultsStep(batches, After(batches, steps[..n]).value, steps[n], m);
      hide Do, Enabled, Submitting, CopyingResult, DroppingResult, TakesOff, Init;
    }
  }

  lemma ResultsStep(batches: Batches, s: State, step: Step, m: Message)
    requires Enabled(batches, s, step)
    ensures var s' := Do(batches, s, step);
      s'.results[m] + s'.resultsDlq[m] + Bit(TakesOff(s, step, m)) + Bit(DroppingResult(m)(step)) ==
        s.results[m] + s.resultsDlq[m] + Bit(Submitting(m)(step)) + Bit(CopyingResult(m)(step))
  {
    hide HttpEvent, Delivery.EventOf, CanAnswer, IsPoison, DoWriteIndex, DoStart, DoLookup, DoClaim, DoRaise;
    hide DoAcknowledge, DoCrash, DoReceive, DoQueue;
    if step.Submit? || step.DeadLetterResult? || step.ReplayResult? {
      ResultsQueued(s, step, m);
    } else if step.Acknowledge? {
      OneTakenOff(s, step.h, m);
    } else {
      ResultsUntouched(batches, s, step);
      hide Do, Enabled;
    }
  }

  lemma ResultsQueued(s: State, step: Step, m: Message)
    requires step.Submit? || step.DeadLetterResult? || step.ReplayResult?
    requires step.DeadLetterResult? ==> step.message in s.results
    requires step.ReplayResult? ==> step.message in s.resultsDlq
    ensures var s' := DoQueue(s, step);
      s'.results[m] + s'.resultsDlq[m] + Bit(DroppingResult(m)(step)) ==
        s.results[m] + s.resultsDlq[m] + Bit(Submitting(m)(step)) + Bit(CopyingResult(m)(step))
  {
    hide IsPoison;
    match step
    case Submit(n) =>
    case DeadLetterResult(n) =>
    case ReplayResult(n, done) => ResultReplayed(s, n, done, m);
  }

  lemma ResultReplayed(s: State, n: Message, done: bool, m: Message)
    requires n in s.resultsDlq
    ensures var step := ReplayResult(n, done);
      var s' := DoQueue(s, step);
      s'.results[m] + s'.resultsDlq[m] + Bit(DroppingResult(m)(step)) ==
        s.results[m] + s.resultsDlq[m] + Bit(Submitting(m)(step)) + Bit(CopyingResult(m)(step))
  {
    var step := ReplayResult(n, done);
    var s', poison := DoQueue(s, step), IsPoison(n.body);
    assert s'.results == if poison then s.results else s.results + multiset{n};
    assert s'.resultsDlq == if done then s.resultsDlq - multiset{n} else s.resultsDlq;
    assert Submitting(m)(step) == false;
    assert CopyingResult(m)(step) == (n == m && !done && !poison);
    assert DroppingResult(m)(step) == (n == m && done && poison);
    hide DoQueue, IsPoison, Submitting, CopyingResult, DroppingResult;
  }

  lemma OneTakenOff(s: State, h: nat, m: Message)
    requires h in s.handlers
    ensures var s' := DoAcknowledge(s, h);
      && s'.results[m] + Bit(TakesOff(s, Acknowledge(h), m)) == s.results[m]
      && s'.resultsDlq == s.resultsDlq
  {
  }

  lemma ResultsUntouched(batches: Batches, s: State, step: Step)
    requires Enabled(batches, s, step)
    requires !step.Submit? && !step.DeadLetterResult? && !step.ReplayResult? && !step.Acknowledge?
    ensures Do(batches, s, step).results == s.results && Do(batches, s, step).resultsDlq == s.resultsDlq
  {
    hide HttpEvent, Delivery.EventOf, CanAnswer, RunIdOf, IsPoison;
  }

  // ---- where handlers come from ------------------------------------------------------------------------

  ghost predicate TriggeredBy(s: State, h: nat, m: Message) {
    h in s.handlers && s.handlers[h].source == Some(m)
  }

  /** The message is somewhere: in the queue, among its dead letters, or with a handler. */
  ghost predicate About(s: State, m: Message) {
    m in s.results || m in s.resultsDlq || exists h :: TriggeredBy(s, h, m)
  }

  /** No handler is ever triggered by a message that nobody submitted. */
  lemma {:induction false} OnlySubmitted(batches: Batches, steps: seq<Step>, m: Message)
    requires After(batches, steps).Some? && About(After(batches, steps).value, m)
    ensures Submit(m) in steps
  {
    if steps != [] {
      var n := |steps| - 1;
      NothingAppears(batches, After(batches, steps[..n]).value, steps[n], m);
      hide Do, Enabled, About, Init;
      if About(After(batches, steps[..n]).value, m) {
        OnlySubmitted(batches, steps[..n], m);
      }
    }
  }

  lemma NothingAppears(batches: Batches, s: State, step: Step, m: Message)
    requires Enabled(batches, s, step) && About(Do(batches, s, step), m)
    ensures About(s, m) || step == Submit(m)
  {
    var s' := Do(batches, s, step);
    if m in s'.results || m in s'.resultsDlq {
      QueuedBefore(batches, s, step, m);
    } else {
      var h :| TriggeredBy(s', h, m);
      SourceStays(batches, s, step, h);
      hide Do, Enabled;
      assert TriggeredBy(s, h, m) || m in s.results;
    }
  }

  lemma QueuedBefore(batches: Batches, s: State, step: Step, m: Message)
    requires Enabled(batches, s, step)
    requires m in Do(batches, s, step).results || m in Do(batches, s, step).resultsDlq
    ensures m in s.results || m in s.resultsDlq || step == Submit(m)
  {
    hide HttpEvent, Delivery.EventOf, CanAnswer, IsPoison, DoWriteIndex, DoStart, DoLookup, DoClaim, DoRaise;
    hide DoAcknowledge, DoCrash, DoReceive;
    if step.Submit? || step.DeadLetterResult? || step.ReplayResult? {
      match step
      case Submit(n) =>
      case DeadLetterResult(n) =>
      case ReplayResult(n, done) =>
    } else if step.Acknowledge? {
      OneTakenOff(s, step.h, m);
      hide TakesOff;
    } else {
      ResultsUntouched(batches, s, step);
      hide Do, Enabled;
    }
  }

  /** A handler was there before with the same source, or is new and has its source from the
      queue. */
  lemma SourceStays(batches: Batches, s: State, step: Step, h: nat)
    requires Enabled(batches, s, step) && h in Do(batches, s, step).handlers
    ensures var source := Do(batches, s, step).handlers[h].source;
      || (h in s.handlers && s.handlers[h].source == source)
      || source.None? || source.value in s.results
  {
    hide HttpEvent, Delivery.EventOf, CanAnswer, RunIdOf;
    if step.Lookup? || step.Claim? || step.Raise? || step.Acknowledge? || step.Crash? {
      SourceWhileHandled(s, step.h, h);
      hide DoLookup, DoClaim, DoRaise, DoAcknowledge, DoCrash, DoQueue, DoStart, DoReceive, DoWriteIndex;
    } else if step.TriggerSb? || step.RequestHttp? {
      hide DoLookup, DoClaim, DoRaise, DoAcknowledge, DoCrash, DoQueue, DoReceive, DoWriteIndex;
    } else {
      hide DoLookup, DoClaim, DoRaise, DoAcknowledge, DoCrash, DoStart, IsPoison;
    }
  }

  lemma SourceWhileHandled(s: State, g: nat, h: nat)
    requires g in s.handlers
    ensures SameSource(s, DoLookup(s, g), h)
    ensures s.handlers[g].phase.LookedUp? ==> SameSource(s, DoClaim(s, g), h)
    ensures s.handlers[g].phase.Claimed? ==> SameSource(s, DoRaise(s, g), h)
    ensures SameSource(s, DoAcknowledge(s, g), h) && SameSource(s, DoCrash(s, g), h)
  {
  }

  ghost predicate SameSource(s: State, s': State, h: nat) {
    h in s'.handlers ==> h in s.handlers && s'.handlers[h].source == s.handlers[h].source
  }
}
