/** The at-least-once protocol between dispatch, engine, intake and orchestrator. */
module Delivery {
  import opened Options
  import opened Json
  import opened Contracts
  import opened Intake

  /** A message on the results queue; a body that is not JSON is absent. */
  datatype Message = Message(body: Option<Value>, carrier: Carrier)

  /** How far an intake handler has come. */
  datatype Phase = Accepted | LookedUp(batchId: string) | Claimed(batchId: string) | Finished

  /** One execution of an intake handler: whether its process has an account configured, the
      event it would raise, and the queue message it was triggered by, if any. */
  datatype Handler = Handler(account: bool, event: RunResult, source: Option<Message>, phase: Phase)

  /** An event raised for an orchestration, with the handler that raised it. */
  datatype RaisedEvent = RaisedEvent(batchId: string, runId: string, event: RunResult, winner: nat)

  datatype State = State(
    index: map<string, string>,          // run-index blobs: run id to batch id
    markers: map<string, nat>,           // result-delivery blobs: run id to the handler that wrote it
    dispatching: multiset<string>,       // dispatches that wrote the index and did not send yet
    sent: set<string>,                   // runs ever sent to the engine
    runs: multiset<string>,
    runsDlq: multiset<string>,
    results: multiset<Message>,
    resultsDlq: multiset<Message>,
    handlers: map<nat, Handler>,
    accepted: seq<RunResult>,            // the event of every handler ever started
    raised: seq<RaisedEvent>,
    crashed: set<nat>,                   // handlers that crashed between claiming and raising
    waiting: set<Wait>,
    received: map<Wait, nat>)            // which raised event answered a wait

  datatype Step =
    | WriteIndex(batchId: string, cv: nat, runIndex: nat)
    | SendRun(runId: string)
    | AbandonDispatch(runId: string)
    | EngineDone(runId: string)
    | DeadLetterRun(runId: string)
    | ReplayRun(runId: string, completed: bool)
    | Submit(message: Message)
    | DeadLetterResult(message: Message)
    | ReplayResult(message: Message, completed: bool)
    | TriggerSb(message: Message, account: bool)
    | RequestHttp(runId: string, body: Value, carrier: Carrier, account: bool)
    | Lookup(h: nat)
    | Claim(h: nat)
    | Raise(h: nat)
    | Acknowledge(h: nat)
    | Crash(h: nat)
    | Receive(k: nat, wait: Wait)

  type Batches = map<string, Batch>

  /** Batch ids are UUIDs, so they have no colon. */
  ghost predicate WellNamed(batches: Batches) {
    forall id :: id in batches ==> batches[id].batchId == id && ':' !in id
  }

  ghost predicate OwnedBy(batches: Batches, runId: string, batchId: string) {
    batchId in batches && runId in RunIds(batches[batchId])
  }

  function Init(batches: Batches): State {
    State(map[], map[], multiset{}, {}, multiset{}, multiset{}, multiset{}, multiset{}, map[], [], [], {},
          AllWaits(batches), map[])
  }

  predicate IsWaitOf(batches: Batches, w: Wait) {
    w.batchId in batches && IsWaitIn(batches[w.batchId], w)
  }

  function AllWaits(batches: Batches): (waits: set<Wait>)
    ensures forall w :: w in waits <==> IsWaitOf(batches, w)
  {
    set id, i: nat, j: nat | id in batches && i < |batches[id].cvs| && j < batches[id].runCount :: Wait(id, i, j)
  }

  function AwaitedRun(batches: Batches, w: Wait): string
    requires IsWaitOf(batches, w)
  {
    Awaited(batches[w.batchId], w)
  }

  /** An event answers one wait of the orchestration it was raised for, and only one. */
  predicate CanAnswer(batches: Batches, s: State, k: nat, w: Wait) {
    && k < |s.raised| && w in s.waiting && IsWaitOf(batches, w)
    && w.batchId == s.raised[k].batchId && AwaitedRun(batches, w) == s.raised[k].runId
    && forall v | v in s.received :: s.received[v] != k
  }

  /** What an execution of the intake would raise for a message. */
  function EventOf(m: Message): Option<RunResult> {
    if m.body.None? then None else SbEvent(m.body.value, m.carrier)
  }

  predicate Enabled(batches: Batches, s: State, step: Step) {
    match step
    case WriteIndex(id, i, j) => id in batches && i < |batches[id].cvs| && j < batches[id].runCount
    case SendRun(id) => id in s.dispatching
    case AbandonDispatch(id) => id in s.dispatching
    case EngineDone(id) => id in s.runs
    case DeadLetterRun(id) => id in s.runs
    case ReplayRun(id, _) => id in s.runsDlq
    case Submit(_) => true
    case DeadLetterResult(m) => m in s.results
    case ReplayResult(m, _) => m in s.resultsDlq
    case TriggerSb(m, _) => m in s.results && EventOf(m).Some?
    case RequestHttp(id, body, carrier, _) => HttpEvent(id, body, carrier).Some?
    case Lookup(h) => h in s.handlers && s.handlers[h].phase.Accepted?
    case Claim(h) => h in s.handlers && s.handlers[h].phase.LookedUp?
    case Raise(h) => h in s.handlers && s.handlers[h].phase.Claimed?
    case Acknowledge(h) => h in s.handlers && s.handlers[h].phase.Finished?
    case Crash(h) => h in s.handlers
    case Receive(k, w) => CanAnswer(batches, s, k, w)
  }

  // dispatch: index first, then the message

  function DoWriteIndex(batches: Batches, s: State, id: string, i: nat, j: nat): State
    requires Enabled(batches, s, WriteIndex(id, i, j))
  {
    var runId := RunIdOf(batches[id], i, j);
    s.(index := s.index[runId := batches[id].batchId], dispatching := s.dispatching + multiset{runId})
  }

  // the two queues

  function DoQueue(s: State, step: Step): State {
    match step
    case SendRun(id) =>
      s.(dispatching := s.dispatching - multiset{id}, runs := s.runs + multiset{id}, sent := s.sent + {id})
    case AbandonDispatch(id) => s.(dispatching := s.dispatching - multiset{id})
    case EngineDone(id) => s.(runs := s.runs - multiset{id})
    case DeadLetterRun(id) => s.(runs := s.runs - multiset{id}, runsDlq := s.runsDlq + multiset{id})
    case ReplayRun(id, completed) =>
      s.(runs := s.runs + multiset{id}, runsDlq := if completed then s.runsDlq - multiset{id} else s.runsDlq)
    case Submit(m) => s.(results := s.results + multiset{m})
    case DeadLetterResult(m) => s.(results := s.results - multiset{m}, resultsDlq := s.resultsDlq + multiset{m})
    case ReplayResult(m, completed) =>
      s.(results := if IsPoison(m.body) then s.results else s.results + multiset{m},
         resultsDlq := if completed then s.resultsDlq - multiset{m} else s.resultsDlq)
    case _ => s
  }

  // intake: start, look up, claim, raise

  function DoStart(s: State, account: bool, event: RunResult, source: Option<Message>): State {
    s.(handlers := s.handlers[|s.accepted| := Handler(account, event, source, Accepted)],
       accepted := s.accepted + [event])
  }

  function Advanced(s: State, h: nat, phase: Phase): State
    requires h in s.handlers
  {
    s.(handlers := s.handlers[h := s.handlers[h].(phase := phase)])
  }

  /** Without an account the lookup finds nothing. */
  function DoLookup(s: State, h: nat): State
    requires h in s.handlers
  {
    var handler := s.handlers[h];
    var found := handler.account && handler.event.runId in s.index;
    Advanced(s, h, if found then LookedUp(s.index[handler.event.runId]) else Finished)
  }

  /** Without an account every claim succeeds and leaves no marker. */
  function DoClaim(s: State, h: nat): State
    requires h in s.handlers && s.handlers[h].phase.LookedUp?
  {
    var handler := s.handlers[h];
    if !handler.account then Advanced(s, h, Claimed(handler.phase.batchId))
    else if handler.event.runId in s.markers then Advanced(s, h, Finished)
    else Advanced(s, h, Claimed(handler.phase.batchId)).(markers := s.markers[handler.event.runId := h])
  }

  function DoRaise(s: State, h: nat): State
    requires h in s.handlers && s.handlers[h].phase.Claimed?
  {
    var handler := s.handlers[h];
    var event := RaisedEvent(handler.phase.batchId, handler.event.runId, handler.event, h);
    Advanced(s, h, Finished).(raised := s.raised + [event])
  }

  function DoAcknowledge(s: State, h: nat): State
    requires h in s.handlers
  {
    s.(handlers := s.handlers - {h},
       results := if s.handlers[h].source.Some? then s.results - multiset{s.handlers[h].source.value} else s.results)
  }

  function DoCrash(s: State, h: nat): State
    requires h in s.handlers
  {
    s.(handlers := s.handlers - {h}, crashed := if s.handlers[h].phase.Claimed? then s.crashed + {h} else s.crashed)
  }

  // the orchestrator

  function DoReceive(s: State, k: nat, w: Wait): State {
    s.(waiting := s.waiting - {w}, received := s.received[w := k])
  }

  function Do(batches: Batches, s: State, step: Step): State
    requires Enabled(batches, s, step)
  {
    match step
    case WriteIndex(id, i, j) => DoWriteIndex(batches, s, id, i, j)
    case TriggerSb(m, account) => DoStart(s, account, EventOf(m).value, Some(m))
    case RequestHttp(id, body, carrier, account) => DoStart(s, account, HttpEvent(id, body, carrier).value, None)
    case Lookup(h) => DoLookup(s, h)
    case Claim(h) => DoClaim(s, h)
    case Raise(h) => DoRaise(s, h)
    case Acknowledge(h) => DoAcknowledge(s, h)
    case Crash(h) => DoCrash(s, h)
    case Receive(k, w) => DoReceive(s, k, w)
    case _ => DoQueue(s, step)
  }

  /** The state after some steps, if each was possible when it was taken. */
  function After(batches: Batches, steps: seq<Step>): Option<State> {
    if steps == [] then Some(Init(batches))
    else
      var before := After(batches, steps[..|steps| - 1]);
      if before.Some? && Enabled(batches, before.value, steps[|steps| - 1]) then
        Some(Do(batches, before.value, steps[|steps| - 1]))
      else None
  }

  lemma OneMore(batches: Batches, steps: seq<Step>, step: Step)
    requires After(batches, steps).Some? && Enabled(batches, After(batches, steps).value, step)
    ensures After(batches, steps + [step]) == Some(Do(batches, After(batches, steps).value, step))
  {
    hide Do, Enabled, Init;
    var all := steps + [step];
    assert all[..|all| - 1] == steps && all[|all| - 1] == step;
  }

  // ---- what every step keeps -------------------------------------------------------------------------

  ghost predicate IndexFits(batches: Batches, s: State) {
    && (forall id :: id in s.index ==> OwnedBy(batches, id, s.index[id]))
    && (forall id :: id in s.dispatching ==> id in s.index)
    && (forall id :: id in s.sent ==> id in s.index)
    && (forall id :: id in s.runs ==> id in s.sent)
    && (forall id :: id in s.runsDlq ==> id in s.sent)
  }

  ghost predicate HandlerFits(s: State, h: nat)
    requires h in s.handlers
  {
    var handler := s.handlers[h];
    && h < |s.accepted| && handler.event == s.accepted[h] && h !in s.crashed
    && (handler.phase.LookedUp? || handler.phase.Claimed? ==>
         && handler.account && handler.event.runId in s.index
         && handler.phase.batchId == s.index[handler.event.runId])
    && (handler.phase.Claimed? ==> handler.event.runId in s.markers && s.markers[handler.event.runId] == h)
    && (!handler.phase.Finished? ==> !HasRaised(s, h))
  }

  ghost predicate HasRaised(s: State, h: nat) {
    exists k :: 0 <= k < |s.raised| && s.raised[k].winner == h
  }

  ghost predicate Holds(s: State, h: nat) {
    h in s.handlers && s.handlers[h].phase.Claimed?
  }

  /** The winner of a marker raised its event, or is about to, or crashed before it could:
      exactly one of the three. */
  ghost predicate MarkerFits(s: State, id: string)
    requires id in s.markers
  {
    var w := s.markers[id];
    && w < |s.accepted| && s.accepted[w].runId == id && id in s.index
    && (if HasRaised(s, w) then !Holds(s, w) && w !in s.crashed
        else if Holds(s, w) then w !in s.crashed
        else w in s.crashed)
  }

  ghost predicate RaisedFits(s: State, r: RaisedEvent) {
    && r.winner < |s.accepted| && r.event == s.accepted[r.winner] && r.runId == r.event.runId
    && r.runId in s.markers && s.markers[r.runId] == r.winner
    && r.runId in s.index && r.batchId == s.index[r.runId]
  }

  ghost predicate Once(s: State) {
    forall k, l :: 0 <= k < l < |s.raised| ==> s.raised[k].winner != s.raised[l].winner
  }

  ghost predicate ReceivedFits(batches: Batches, s: State) {
    && (forall w :: w in s.received ==> w !in s.waiting && AnsweredBy(batches, s, w, s.received[w]))
    && (forall v, w :: v in s.received && w in s.received && v != w ==> s.received[v] != s.received[w])
    && (forall w :: IsWaitOf(batches, w) ==> w in s.waiting || w in s.received)
  }

  ghost predicate AnsweredBy(batches: Batches, s: State, w: Wait, k: nat) {
    && k < |s.raised| && IsWaitOf(batches, w)
    && w.batchId == s.raised[k].batchId && AwaitedRun(batches, w) == s.raised[k].runId
  }

  ghost predicate Inv(batches: Batches, s: State) {
    && IndexFits(batches, s)
    && (forall h :: h in s.handlers ==> HandlerFits(s, h))
    && (forall id :: id in s.markers ==> MarkerFits(s, id))
    && (forall k :: 0 <= k < |s.raised| ==> RaisedFits(s, s.raised[k]))
    && Once(s)
    && (forall h :: h in s.crashed ==> h < |s.accepted|)
    && ReceivedFits(batches, s)
  }

  /** A run belongs to one batch only. */
  lemma OneOwner(batches: Batches, runId: string, a: string, c: string)
    requires WellNamed(batches) && OwnedBy(batches, runId, a) && OwnedBy(batches, runId, c)
    ensures a == c
  {
    RunIdsExactly(batches[a]);
    RunIdsExactly(batches[c]);
    var i: nat, j: nat :| IsRunOf(batches[a], runId, i, j);
    var k: nat, l: nat :| IsRunOf(batches[c], runId, k, l);
    RunNaming.RunIdInjective(a, batches[a].cvs[i].applicationId, j, c, batches[c].cvs[k].applicationId, l);
  }

  /** Writing the index again for a run never changes what it says. */
  lemma IndexWrite(batches: Batches, s: State, id: string, i: nat, j: nat)
    requires WellNamed(batches) && IndexFits(batches, s) && Enabled(batches, s, WriteIndex(id, i, j))
    ensures var runId := RunIdOf(batches[id], i, j);
      && OwnedBy(batches, runId, id) && (runId in s.index ==> s.index[runId] == id)
  {
    var runId := RunIdOf(batches[id], i, j);
    RunIdsExactly(batches[id]);
    assert IsRunOf(batches[id], runId, i, j);
    if runId in s.index {
      OneOwner(batches, runId, s.index[runId], id);
    }
  }

  ghost predicate IsQueueStep(step: Step) {
    step.SendRun? || step.AbandonDispatch? || step.EngineDone? || step.DeadLetterRun? || step.ReplayRun?
    || step.Submit? || step.DeadLetterResult? || step.ReplayResult?
  }

  /** What was written stays written. */
  ghost predicate Grows(s: State, s': State) {
    && (forall id :: id in s.index ==> id in s'.index && s'.index[id] == s.index[id])
    && (forall id :: id in s.markers ==> id in s'.markers && s'.markers[id] == s.markers[id])
    && s.accepted <= s'.accepted && s.raised <= s'.raised && s.crashed <= s'.crashed && s.sent <= s'.sent
  }

  /** A step that leaves handlers, markers and raised events alone. */
  ghost predicate Aside(s: State, s': State) {
    && Grows(s, s')
    && s'.handlers == s.handlers && s'.markers == s.markers && s'.accepted == s.accepted
    && s'.raised == s.raised && s'.crashed == s.crashed
  }

  lemma RaisedSame(s: State, s': State, h: nat)
    requires s'.raised == s.raised
    ensures HasRaised(s, h) == HasRaised(s', h)
  {
  }

  lemma OldRaisedKeeps(s: State, s': State, k: nat)
    requires Grows(s, s') && k < |s.raised| && RaisedFits(s, s.raised[k])
    ensures k < |s'.raised| && RaisedFits(s', s'.raised[k])
  {
    assert s'.raised[k] == s.raised[k];
  }

  lemma AsideHandler(s: State, s': State, h: nat)
    requires Aside(s, s') && h in s.handlers && HandlerFits(s, h)
    ensures HandlerFits(s', h)
  {
    RaisedSame(s, s', h);
    hide HasRaised;
  }

  lemma AsideMarker(s: State, s': State, id: string)
    requires Aside(s, s') && id in s.markers && MarkerFits(s, id)
    ensures MarkerFits(s', id)
  {
    RaisedSame(s, s', s.markers[id]);
    hide HasRaised;
  }

  lemma AsideKeeps(batches: Batches, s: State, s': State)
    requires Inv(batches, s) && Aside(s, s') && IndexFits(batches, s') && ReceivedFits(batches, s')
    ensures Inv(batches, s')
  {
    hide IndexFits, ReceivedFits, HandlerFits, MarkerFits, RaisedFits;
    forall h | h in s'.handlers ensures HandlerFits(s', h) { AsideHandler(s, s', h); }
    forall id | id in s'.markers ensures MarkerFits(s', id) { AsideMarker(s, s', id); }
    forall k | 0 <= k < |s'.raised| ensures RaisedFits(s', s'.raised[k]) { OldRaisedKeeps(s, s', k); }
  }

  lemma ReceivedKeeps(batches: Batches, s: State, s': State)
    requires ReceivedFits(batches, s) && s.raised <= s'.raised && s'.waiting == s.waiting && s'.received == s.received
    ensures ReceivedFits(batches, s')
  {
    hide IsWaitOf, AwaitedRun, RunIdOf;
    forall w | w in s'.received ensures AnsweredBy(batches, s', w, s'.received[w]) {
      assert AnsweredBy(batches, s, w, s.received[w]);
    }
  }

  ghost predicate OnlyQueues(s: State, s': State) {
    && s' == s.(dispatching := s'.dispatching, sent := s'.sent, runs := s'.runs, runsDlq := s'.runsDlq,
                results := s'.results, resultsDlq := s'.resultsDlq)
    && s.sent <= s'.sent
  }

  lemma QueueTouches(s: State, step: Step)
    ensures OnlyQueues(s, DoQueue(s, step))
  {
    hide IsPoison;
  }

  /** No run gets onto a queue that was not being dispatched, or sent before. */
  ghost predicate QueuedWereSent(s: State, s': State) {
    && (forall id :: id in s'.dispatching ==> id in s.dispatching)
    && (forall id :: id in s'.sent ==> id in s.sent || id in s.dispatching)
    && (forall id :: id in s'.runs ==> id in s'.sent)
    && (forall id :: id in s'.runsDlq ==> id in s'.sent)
  }

  lemma QueueStepSends(batches: Batches, s: State, step: Step)
    requires IndexFits(batches, s) && Enabled(batches, s, step) && IsQueueStep(step)
    ensures QueuedWereSent(s, DoQueue(s, step))
  {
    hide EventOf, HttpEvent, CanAnswer, DoQueue, QueuedWereSent, OwnedBy;
    match step
    case SendRun(id) => SentAfterSend(batches, s, id);
    case ReplayRun(id, completed) => SentAfterReplay(batches, s, id, completed);
    case DeadLetterRun(id) => SentAfterDeadLetter(batches, s, id);
    case EngineDone(id) => SentAfterDone(batches, s, id);
    case AbandonDispatch(id) => SentAfterAbandon(batches, s, id);
    case _ => SentAfterResults(batches, s, step);
  }

  lemma SentAfterSend(batches: Batches, s: State, id: string)
    requires IndexFits(batches, s) && id in s.dispatching
    ensures QueuedWereSent(s, DoQueue(s, SendRun(id)))
  {
    hide OwnedBy, IsPoison;
    assert forall r :: r in s.runs + multiset{id} ==> r in s.runs || r == id;
  }

  lemma SentAfterReplay(batches: Batches, s: State, id: string, completed: bool)
    requires IndexFits(batches, s) && id in s.runsDlq
    ensures QueuedWereSent(s, DoQueue(s, ReplayRun(id, completed)))
  {
    hide OwnedBy, IsPoison;
    assert forall r :: r in s.runs + multiset{id} ==> r in s.runs || r == id;
  }

  lemma SentAfterDeadLetter(batches: Batches, s: State, id: string)
    requires IndexFits(batches, s) && id in s.runs
    ensures QueuedWereSent(s, DoQueue(s, DeadLetterRun(id)))
  {
    hide OwnedBy, IsPoison;
    assert forall r :: r in s.runsDlq + multiset{id} ==> r in s.runsDlq || r == id;
  }

  lemma SentAfterDone(batches: Batches, s: State, id: string)
    requires IndexFits(batches, s)
    ensures QueuedWereSent(s, DoQueue(s, EngineDone(id)))
  {
    hide OwnedBy, IsPoison;
  }

  lemma SentAfterAbandon(batches: Batches, s: State, id: string)
    requires IndexFits(batches, s)
    ensures QueuedWereSent(s, DoQueue(s, AbandonDispatch(id)))
  {
    hide OwnedBy, IsPoison;
  }

  lemma SentAfterResults(batches: Batches, s: State, step: Step)
    requires IndexFits(batches, s) && (step.Submit? || step.DeadLetterResult? || step.ReplayResult?)
    ensures QueuedWereSent(s, DoQueue(s, step))
  {
    hide OwnedBy, IsPoison;
  }

  lemma QueueKeepsIndex(batches: Batches, s: State, step: Step)
    requires IndexFits(batches, s) && Enabled(batches, s, step) && IsQueueStep(step)
    ensures IndexFits(batches, DoQueue(s, step))
  {
    QueueStepSends(batches, s, step);
    QueueTouches(s, step);
    hide DoQueue, Enabled, OwnedBy;
  }

  lemma QueueKeeps(batches: Batches, s: State, step: Step)
    requires Inv(batches, s) && Enabled(batches, s, step) && IsQueueStep(step)
    ensures Inv(batches, DoQueue(s, step))
  {
    QueueTouches(s, step);
    hide DoQueue, Enabled, IndexFits, ReceivedFits, HandlerFits, MarkerFits, RaisedFits;
    QueueKeepsIndex(batches, s, step);
    ReceivedKeeps(batches, s, DoQueue(s, step));
    AsideKeeps(batches, s, DoQueue(s, step));
  }

  // ---- the other steps ---------------------------------------------------------------------------------

  /** For everyone but h nothing changed. */
  ghost predicate OnlyTouches(s: State, s': State, h: nat) {
    && Grows(s, s')
    && (forall g :: g != h ==> (g in s.handlers <==> g in s'.handlers))
    && (forall g :: g != h && g in s.handlers ==> s'.handlers[g] == s.handlers[g])
    && (forall g :: g != h ==> (g in s.crashed <==> g in s'.crashed))
    && (forall k :: |s.raised| <= k < |s'.raised| ==> s'.raised[k].winner == h)
    && (forall id :: id in s'.markers && id !in s.markers ==> s'.markers[id] == h)
    && s'.dispatching == s.dispatching && s'.sent == s.sent && s'.runs == s.runs && s'.runsDlq == s.runsDlq
    && s'.index == s.index && s'.waiting == s.waiting && s'.received == s.received
  }

  lemma RaisedByOthers(s: State, s': State, h: nat, g: nat)
    requires OnlyTouches(s, s', h) && g != h
    ensures HasRaised(s, g) <==> HasRaised(s', g)
  {
    if HasRaised(s, g) {
      var k :| 0 <= k < |s.raised| && s.raised[k].winner == g;
      assert s'.raised[k].winner == g;
    }
    if HasRaised(s', g) {
      var k :| 0 <= k < |s'.raised| && s'.raised[k].winner == g;
      assert k < |s.raised| && s.raised[k].winner == g;
    }
  }

  /** A step of one handler keeps the invariant when it leaves that handler's own entries in order. */
  lemma HandlerStepKeeps(batches: Batches, s: State, s': State, h: nat)
    requires Inv(batches, s) && OnlyTouches(s, s', h)
    requires h in s'.handlers ==> HandlerFits(s', h)
    requires forall id :: id in s'.markers && s'.markers[id] == h ==> MarkerFits(s', id)
    requires forall k :: |s.raised| <= k < |s'.raised| ==> RaisedFits(s', s'.raised[k])
    requires |s'.raised| <= |s.raised| + 1 && (|s'.raised| > |s.raised| ==> !HasRaised(s, h))
    requires h in s'.crashed ==> h < |s'.accepted|
    ensures Inv(batches, s')
  {
    hide HandlerFits, MarkerFits, RaisedFits, ReceivedFits, Once, HasRaised, OwnedBy;
    forall g | g in s'.handlers ensures HandlerFits(s', g) {
      if g != h {
        OtherHandlerKeeps(s, s', h, g);
      }
    }
    forall id | id in s'.markers ensures MarkerFits(s', id) {
      if s'.markers[id] != h {
        OtherMarkerKeeps(s, s', h, id);
      }
    }
    forall k | 0 <= k < |s'.raised| ensures RaisedFits(s', s'.raised[k]) {
      if k < |s.raised| {
        OldRaisedKeeps(s, s', k);
      }
    }
    OnceMore(s, s', h);
    ReceivedKeeps(batches, s, s');
  }

  lemma OtherHandlerKeeps(s: State, s': State, h: nat, g: nat)
    requires OnlyTouches(s, s', h) && g != h && g in s'.handlers && HandlerFits(s, g)
    ensures HandlerFits(s', g)
  {
    RaisedByOthers(s, s', h, g);
    hide HasRaised;
  }

  lemma OtherMarkerKeeps(s: State, s': State, h: nat, id: string)
    requires OnlyTouches(s, s', h) && id in s'.markers && s'.markers[id] != h && id in s.markers && MarkerFits(s, id)
    ensures MarkerFits(s', id)
  {
    RaisedByOthers(s, s', h, s'.markers[id]);
    hide HasRaised;
  }

  lemma OnceMore(s: State, s': State, h: nat)
    requires Once(s) && OnlyTouches(s, s', h)
    requires |s'.raised| <= |s.raised| + 1 && (|s'.raised| > |s.raised| ==> !HasRaised(s, h))
    ensures Once(s')
  {
    forall k, l | 0 <= k < l < |s'.raised| ensures s'.raised[k].winner != s'.raised[l].winner {
      assert s'.raised[k] == s.raised[k];
    }
  }

  lemma StartKeeps(batches: Batches, s: State, account: bool, event: RunResult, source: Option<Message>)
    requires Inv(batches, s)
    ensures Inv(batches, DoStart(s, account, event, source))
  {
    hide IndexFits, ReceivedFits;
    var h, s' := |s.accepted|, DoStart(s, account, event, source);
    forall g | g in s.handlers ensures g != h { assert HandlerFits(s, g); }
    forall id | id in s'.markers ensures s'.markers[id] != h { assert MarkerFits(s, id); }
    forall k | 0 <= k < |s.raised| ensures s.raised[k].winner != h { assert RaisedFits(s, s.raised[k]); }
    HandlerStepKeeps(batches, s, s', h);
  }

  /** A handler that has not claimed yet is nobody's winner. */
  lemma NoWinnerYet(batches: Batches, s: State, h: nat)
    requires Inv(batches, s) && h in s.handlers && (s.handlers[h].phase.Accepted? || s.handlers[h].phase.LookedUp?)
    ensures forall id :: id in s.markers ==> s.markers[id] != h
    ensures HandlerFits(s, h)
  {
    assert HandlerFits(s, h);
    forall id | id in s.markers ensures s.markers[id] != h { assert MarkerFits(s, id); }
  }

  /** The marker of a handler is the one for its own run. */
  lemma OwnMarker(batches: Batches, s: State, h: nat)
    requires Inv(batches, s) && h in s.handlers
    ensures HandlerFits(s, h)
    ensures forall id :: id in s.markers && s.markers[id] == h ==> id == s.handlers[h].event.runId && MarkerFits(s, id)
  {
    assert HandlerFits(s, h);
    forall id | id in s.markers && s.markers[id] == h ensures id == s.handlers[h].event.runId && MarkerFits(s, id) {
      assert MarkerFits(s, id);
    }
  }

  /** What one step of a handler leaves alone. */
  lemma Touches(s: State, h: nat)
    requires h in s.handlers
    ensures OnlyTouches(s, DoLookup(s, h), h)
    ensures s.handlers[h].phase.LookedUp? && s.handlers[h].account ==> OnlyTouches(s, DoClaim(s, h), h)
  {
  }

  lemma EndTouches(s: State, h: nat)
    requires h in s.handlers
    ensures s.handlers[h].phase.Claimed? ==> OnlyTouches(s, DoRaise(s, h), h)
    ensures OnlyTouches(s, DoAcknowledge(s, h), h)
    ensures OnlyTouches(s, DoCrash(s, h), h)
  {
  }

  lemma LookupKeeps(batches: Batches, s: State, h: nat)
    requires Inv(batches, s) && h in s.handlers && s.handlers[h].phase.Accepted?
    ensures Inv(batches, DoLookup(s, h))
  {
    hide Inv, MarkerFits, RaisedFits, OnlyTouches;
    NoWinnerYet(batches, s, h);
    Touches(s, h);
    HandlerStepKeeps(batches, s, DoLookup(s, h), h);
  }

  lemma ClaimKeeps(batches: Batches, s: State, h: nat)
    requires Inv(batches, s) && h in s.handlers && s.handlers[h].phase.LookedUp?
    ensures Inv(batches, DoClaim(s, h))
  {
    hide Inv, RaisedFits, OnlyTouches;
    NoWinnerYet(batches, s, h);
    Touches(s, h);
    HandlerStepKeeps(batches, s, DoClaim(s, h), h);
  }

  lemma RaiseKeeps(batches: Batches, s: State, h: nat)
    requires Inv(batches, s) && h in s.handlers && s.handlers[h].phase.Claimed?
    ensures Inv(batches, DoRaise(s, h))
  {
    hide Inv, OnlyTouches;
    OwnMarker(batches, s, h);
    EndTouches(s, h);
    var s' := DoRaise(s, h);
    assert s'.raised[|s.raised|].winner == h;
    HandlerStepKeeps(batches, s, s', h);
  }

  lemma AcknowledgeKeeps(batches: Batches, s: State, h: nat)
    requires Inv(batches, s) && h in s.handlers && s.handlers[h].phase.Finished?
    ensures Inv(batches, DoAcknowledge(s, h))
  {
    hide Inv, RaisedFits, OnlyTouches;
    OwnMarker(batches, s, h);
    EndTouches(s, h);
    HandlerStepKeeps(batches, s, DoAcknowledge(s, h), h);
  }

  lemma CrashKeeps(batches: Batches, s: State, h: nat)
    requires Inv(batches, s) && h in s.handlers
    ensures Inv(batches, DoCrash(s, h))
  {
    hide Inv, RaisedFits, OnlyTouches;
    OwnMarker(batches, s, h);
    EndTouches(s, h);
    HandlerStepKeeps(batches, s, DoCrash(s, h), h);
  }

  lemma WriteIndexAside(batches: Batches, s: State, id: string, i: nat, j: nat)
    requires WellNamed(batches) && IndexFits(batches, s) && Enabled(batches, s, WriteIndex(id, i, j))
    ensures var s' := DoWriteIndex(batches, s, id, i, j);
      Aside(s, s') && s'.waiting == s.waiting && s'.received == s.received
  {
    hide OwnedBy, RunIdOf, IndexFits;
    IndexWrite(batches, s, id, i, j);
  }

  lemma WriteIndexFits(batches: Batches, s: State, id: string, i: nat, j: nat)
    requires WellNamed(batches) && IndexFits(batches, s) && Enabled(batches, s, WriteIndex(id, i, j))
    ensures IndexFits(batches, DoWriteIndex(batches, s, id, i, j))
  {
    hide OwnedBy, RunIdOf;
    IndexWrite(batches, s, id, i, j);
  }

  lemma WriteIndexKeeps(batches: Batches, s: State, id: string, i: nat, j: nat)
    requires WellNamed(batches) && Inv(batches, s) && Enabled(batches, s, WriteIndex(id, i, j))
    ensures Inv(batches, DoWriteIndex(batches, s, id, i, j))
    ensures Grows(s, DoWriteIndex(batches, s, id, i, j))
  {
    hide WellNamed, IndexFits, ReceivedFits, HandlerFits, MarkerFits, RaisedFits, Once, DoWriteIndex, Enabled;
    WriteIndexAside(batches, s, id, i, j);
    WriteIndexFits(batches, s, id, i, j);
    ReceivedKeeps(batches, s, DoWriteIndex(batches, s, id, i, j));
    AsideKeeps(batches, s, DoWriteIndex(batches, s, id, i, j));
  }

  lemma ReceiveKeeps(batches: Batches, s: State, k: nat, w: Wait)
    requires Inv(batches, s) && CanAnswer(batches, s, k, w)
    ensures Inv(batches, DoReceive(s, k, w))
  {
    hide OwnedBy, IndexFits, ReceivedFits, HandlerFits, MarkerFits, RaisedFits;
    ReceiveFits(batches, s, k, w);
    IndexSame(batches, s, DoReceive(s, k, w));
    AsideKeeps(batches, s, DoReceive(s, k, w));
  }

  lemma IndexSame(batches: Batches, s: State, s': State)
    requires IndexFits(batches, s) && s' == s.(waiting := s'.waiting, received := s'.received)
    ensures IndexFits(batches, s')
  {
    hide OwnedBy;
  }

  lemma ReceiveFits(batches: Batches, s: State, k: nat, w: Wait)
    requires ReceivedFits(batches, s) && CanAnswer(batches, s, k, w)
    ensures ReceivedFits(batches, DoReceive(s, k, w))
  {
    hide IsWaitOf, AwaitedRun, RunIdOf;
    var s' := DoReceive(s, k, w);
    forall v | v in s'.received ensures v !in s'.waiting && AnsweredBy(batches, s', v, s'.received[v]) {
      if v != w {
        assert AnsweredBy(batches, s, v, s.received[v]);
      }
    }
  }

  lemma InitHolds(batches: Batches)
    ensures Inv(batches, Init(batches))
  {
  }

  lemma StepKeeps(batches: Batches, s: State, step: Step)
    requires WellNamed(batches) && Inv(batches, s) && Enabled(batches, s, step)
    ensures Inv(batches, Do(batches, s, step))
  {
    hide Inv, WellNamed, DoWriteIndex, DoQueue, DoStart, DoLookup, DoClaim, DoRaise, DoAcknowledge, DoCrash;
    hide DoReceive, EventOf, HttpEvent;
    match step
    case WriteIndex(id, i, j) => WriteIndexKeeps(batches, s, id, i, j);
    case TriggerSb(m, account) => StartKeeps(batches, s, account, EventOf(m).value, Some(m));
    case RequestHttp(id, body, carrier, account) =>
      StartKeeps(batches, s, account, HttpEvent(id, body, carrier).value, None);
    case Lookup(h) => LookupKeeps(batches, s, h);
    case Claim(h) => ClaimKeeps(batches, s, h);
    case Raise(h) => RaiseKeeps(batches, s, h);
    case Acknowledge(h) => AcknowledgeKeeps(batches, s, h);
    case Crash(h) => CrashKeeps(batches, s, h);
    case Receive(k, w) => ReceiveKeeps(batches, s, k, w);
    case _ => QueueKeeps(batches, s, step);
  }

  lemma StepGrows(batches: Batches, s: State, step: Step)
    requires WellNamed(batches) && Inv(batches, s) && Enabled(batches, s, step)
    ensures Grows(s, Do(batches, s, step))
  {
    hide Inv, WellNamed, DoWriteIndex, EventOf, HttpEvent, DoQueue, DoLookup, DoClaim, DoRaise, DoAcknowledge;
    hide DoCrash, OnlyTouches;
    match step
    case WriteIndex(id, i, j) => WriteIndexKeeps(batches, s, id, i, j);
    case TriggerSb(_, _) =>
    case RequestHttp(_, _, _, _) =>
    case Receive(_, _) =>
    case Lookup(h) => HandlerGrows(s, h);
    case Claim(h) => HandlerGrows(s, h);
    case Raise(h) => HandlerGrows(s, h);
    case Acknowledge(h) => HandlerGrows(s, h);
    case Crash(h) => HandlerGrows(s, h);
    case _ => QueueTouches(s, step);
  }

  lemma HandlerGrows(s: State, h: nat)
    requires h in s.handlers
    ensures Grows(s, DoLookup(s, h))
    ensures s.handlers[h].phase.LookedUp? ==> Grows(s, DoClaim(s, h))
    ensures s.handlers[h].phase.Claimed? ==> Grows(s, DoRaise(s, h))
    ensures Grows(s, DoAcknowledge(s, h))
    ensures Grows(s, DoCrash(s, h))
  {
  }

  lemma {:induction false} Always(batches: Batches, steps: seq<Step>)
    requires WellNamed(batches) && After(batches, steps).Some?
    ensures Inv(batches, After(batches, steps).value)
  {
    hide Inv, WellNamed, Do, Enabled, Init;
    if steps == [] {
      InitHolds(batches);
    } else {
      Always(batches, steps[..|steps| - 1]);
      StepKeeps(batches, After(batches, steps[..|steps| - 1]).value, steps[|steps| - 1]);
    }
  }

  /** Whatever the index, the markers and the raised events say, they say for good. */
  lemma {:induction false} AlwaysGrows(batches: Batches, steps: seq<Step>, n: nat)
    requires WellNamed(batches) && n <= |steps| && After(batches, steps).Some?
    ensures After(batches, steps[..n]).Some? && Grows(After(batches, steps[..n]).value, After(batches, steps).value)
  {
    hide Inv, WellNamed, Do, Enabled, Init;
    if n == |steps| {
      assert steps[..n] == steps;
    } else {
      var front := steps[..|steps| - 1];
      assert front[..n] == steps[..n];
      AlwaysGrows(batches, front, n);
      Always(batches, front);
      StepGrows(batches, After(batches, front).value, steps[|steps| - 1]);
    }
  }
}
