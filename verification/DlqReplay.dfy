/** Replaying dead letters: republish to the main queue, then complete the dead letter. */
module DlqReplay {
  import opened Options
  import opened Intake
  import opened Delivery

  /** Which of the calls made for one message go through. */
  datatype Calls = Calls(decode: bool, send: bool, complete: bool)

  const ALL_WELL := Calls(true, true, true)

  /** What becomes of a dead letter: it stays, it is there and in the main queue too, it has
      moved to the main queue, or it is gone. */
  datatype Disposition = Left | Duplicated | Moved | Dropped

  // Only messages of the results queue are ever poison. A message of the runs queue stands
  // for its run id.

  function PoisonResult(m: Message): bool {
    IsPoison(m.body)
  }

  function PoisonRun(runId: string): bool {
    false
  }

  function Dispose<T>(poison: T -> bool, m: T, calls: Calls): (d: Disposition)
    ensures d.Dropped? ==> poison(m)
    ensures d.Moved? || d.Duplicated? ==> calls.send && !poison(m)
  {
    if !calls.decode then Left
    else if poison(m) then (if calls.complete then Dropped else Left)
    else if !calls.send then Left
    else if calls.complete then Moved
    else Duplicated
  }

  function Disposals<T>(poison: T -> bool, messages: seq<T>, calls: seq<Calls>): (ds: seq<Disposition>)
    requires |calls| == |messages|
    ensures |ds| == |messages|
  {
    seq(|messages|, k requires 0 <= k < |messages| => Dispose(poison, messages[k], calls[k]))
  }

  function Sent<T>(main: multiset<T>, m: T, d: Disposition): multiset<T> {
    if d in {Moved, Duplicated} then main + multiset{m} else main
  }

  function Completed<T>(dlq: multiset<T>, m: T, d: Disposition): multiset<T> {
    if d in {Moved, Dropped} then dlq - multiset{m} else dlq
  }

  /** The main queue after the messages met with the given ends. */
  function MainAfter<T>(main: multiset<T>, messages: seq<T>, ds: seq<Disposition>): multiset<T>
    requires |ds| == |messages|
  {
    if messages == [] then main
    else
      var n := |messages| - 1;
      Sent(MainAfter(main, messages[..n], ds[..n]), messages[n], ds[n])
  }

  /** The dead letters after the messages met with the given ends. */
  function DlqAfter<T>(dlq: multiset<T>, messages: seq<T>, ds: seq<Disposition>): multiset<T>
    requires |ds| == |messages|
  {
    if messages == [] then dlq
    else
      var n := |messages| - 1;
      Completed(DlqAfter(dlq, messages[..n], ds[..n]), messages[n], ds[n])
  }

  /** The messages reported as failed: all but those that moved. */
  function Failures<T>(messages: seq<T>, ds: seq<Disposition>): seq<T>
    requires |ds| == |messages|
  {
    if messages == [] then []
    else Failures(messages[..|messages| - 1], ds[..|messages| - 1])
         + if ds[|messages| - 1] == Moved then [] else [messages[|messages| - 1]]
  }

  /** How many of the messages equal to m met with one of the given ends. */
  function Count<T(==)>(messages: seq<T>, ds: seq<Disposition>, m: T, ends: set<Disposition>): (n: nat)
    requires |ds| == |messages|
    ensures n <= |messages|
  {
    if messages == [] then 0
    else Count(messages[..|messages| - 1], ds[..|messages| - 1], m, ends)
         + if messages[|messages| - 1] == m && ds[|messages| - 1] in ends then 1 else 0
  }

  lemma {:induction false} CountAll<T>(messages: seq<T>, ds: seq<Disposition>, m: T, ends: set<Disposition>)
    requires |ds| == |messages|
    ensures Count(messages, ds, m, ends) <= multiset(messages)[m]
  {
    if messages != [] {
      var front := messages[..|messages| - 1];
      LastCounts(messages, m);
      CountAll(front, ds[..|messages| - 1], m, ends);
    }
  }

  lemma {:induction false} CountSplits<T>(messages: seq<T>, ds: seq<Disposition>, m: T, a: set<Disposition>,
                                          c: set<Disposition>)
    requires |ds| == |messages| && a !! c
    ensures Count(messages, ds, m, a + c) == Count(messages, ds, m, a) + Count(messages, ds, m, c)
  {
    if messages != [] {
      CountSplits(messages[..|messages| - 1], ds[..|messages| - 1], m, a, c);
    }
  }

  lemma CountLast<T>(messages: seq<T>, ds: seq<Disposition>, m: T, ends: set<Disposition>)
    requires |ds| == |messages| && messages != []
    ensures var n := |messages| - 1;
      Count(messages, ds, m, ends) ==
        Count(messages[..n], ds[..n], m, ends) + if messages[n] == m && ds[n] in ends then 1 else 0
  {
  }

  lemma LastCounts<T>(messages: seq<T>, m: T)
    requires messages != []
    ensures var n := |messages| - 1;
      && multiset(messages) == multiset(messages[..n]) + multiset{messages[n]}
      && multiset(messages)[m] == multiset(messages[..n])[m] + if messages[n] == m then 1 else 0
  {
    var n := |messages| - 1;
    assert messages == messages[..n] + [messages[n]];
  }

  /** Received dead letters: each is among the dead letters until its turn, so what is
      completed leaves and what is sent arrives, message by message. */
  lemma {:induction false} CountsOf<T>(main: multiset<T>, dlq: multiset<T>, messages: seq<T>, ds: seq<Disposition>,
                                       m: T)
    requires |ds| == |messages| && multiset(messages) <= dlq
    ensures MainAfter(main, messages, ds)[m] == main[m] + Count(messages, ds, m, {Moved, Duplicated})
    ensures DlqAfter(dlq, messages, ds)[m] + Count(messages, ds, m, {Moved, Dropped}) == dlq[m]
  {
    if messages != [] {
      var n := |messages| - 1;
      var front, sent, left := messages[..n], MainAfter(main, messages[..n], ds[..n]),
          DlqAfter(dlq, messages[..n], ds[..n]);
      assert MainAfter(main, messages, ds) == Sent(sent, messages[n], ds[n]);
      assert DlqAfter(dlq, messages, ds) == Completed(left, messages[n], ds[n]);
      hide Count, MainAfter, DlqAfter;
      LastCounts(messages, m);
      CountsOf(main, dlq, front, ds[..n], m);
      CountAll(front, ds[..n], m, {Moved, Dropped});
      CountLast(messages, ds, m, {Moved, Duplicated});
      CountLast(messages, ds, m, {Moved, Dropped});
      assert multiset(messages)[m] <= dlq[m];
    }
  }

  lemma StillThere<T>(dlq: multiset<T>, messages: seq<T>, ds: seq<Disposition>)
    requires |ds| == |messages| && messages != [] && multiset(messages) <= dlq
    ensures var n := |messages| - 1;
      multiset(messages[..n]) <= dlq && messages[n] in DlqAfter(dlq, messages[..n], ds[..n])
  {
    var n := |messages| - 1;
    var front, last := messages[..n], messages[n];
    LastCounts(messages, last);
    CountsOf(multiset{}, dlq, front, ds[..n], last);
    CountAll(front, ds[..n], last, {Moved, Dropped});
    assert multiset(messages)[last] <= dlq[last];
  }

  class Queues<T(==)> {
    var main: multiset<T>
    var dlq: multiset<T>

    constructor (main: multiset<T>, dlq: multiset<T>)
      ensures this.main == main && this.dlq == dlq
    {
      this.main, this.dlq := main, dlq;
    }

    /** Takes the received dead letters one by one. Every one is reported once, as replayed
        or as failed; one leaves the dead letters only if it was sent or is poison; one is
        sent at most once, and stays a dead letter as well if completing it fails. */
    method Replay(poison: T -> bool, messages: seq<T>, calls: seq<Calls>) returns (replayed: nat, failed: seq<T>)
      requires |calls| == |messages| && multiset(messages) <= dlq
      modifies this
      ensures main == MainAfter(old(main), messages, Disposals(poison, messages, calls))
      ensures dlq == DlqAfter(old(dlq), messages, Disposals(poison, messages, calls))
      ensures replayed + |failed| == |messages|
      ensures failed == Failures(messages, Disposals(poison, messages, calls))
    {
      hide MainAfter, DlqAfter, Failures, Disposals;
      replayed, failed := 0, [];
      ghost var ds := Disposals(poison, messages, calls);
      NothingYet(main, dlq, messages, ds);
      for k := 0 to |messages|
        invariant replayed + |failed| == k
        invariant main == MainAfter(old(main), messages[..k], ds[..k])
        invariant dlq == DlqAfter(old(dlq), messages[..k], ds[..k])
        invariant failed == Failures(messages[..k], ds[..k])
      {
        var msg := messages[k];
        OneMoreMessage(old(main), old(dlq), messages, ds, k);
        DisposalAt(poison, messages, calls, k);
        if !calls[k].decode {
          failed := failed + [msg];
          continue;
        }
        if poison(msg) {
          if calls[k].complete {
            dlq := dlq - multiset{msg};
          }
          failed := failed + [msg];
          continue;
        }
        if !calls[k].send {
          failed := failed + [msg];
          continue;
        }
        main := main + multiset{msg};
        if !calls[k].complete {
          failed := failed + [msg];
          continue;
        }
        dlq := dlq - multiset{msg};
        replayed := replayed + 1;
      }
      assert messages[..|messages|] == messages && ds[..|messages|] == ds;
    }
  }

  lemma NothingYet<T>(main: multiset<T>, dlq: multiset<T>, messages: seq<T>, ds: seq<Disposition>)
    requires |ds| == |messages|
    ensures MainAfter(main, messages[..0], ds[..0]) == main && DlqAfter(dlq, messages[..0], ds[..0]) == dlq
    ensures Failures(messages[..0], ds[..0]) == []
  {
  }

  lemma DisposalAt<T>(poison: T -> bool, messages: seq<T>, calls: seq<Calls>, k: nat)
    requires k < |messages| == |calls|
    ensures Disposals(poison, messages, calls)[k] == Dispose(poison, messages[k], calls[k])
  {
  }

  lemma OneMoreMessage<T>(main: multiset<T>, dlq: multiset<T>, messages: seq<T>, ds: seq<Disposition>, k: nat)
    requires k < |messages| == |ds|
    ensures MainAfter(main, messages[..k + 1], ds[..k + 1]) ==
        Sent(MainAfter(main, messages[..k], ds[..k]), messages[k], ds[k])
    ensures DlqAfter(dlq, messages[..k + 1], ds[..k + 1]) ==
        Completed(DlqAfter(dlq, messages[..k], ds[..k]), messages[k], ds[k])
    ensures Failures(messages[..k + 1], ds[..k + 1]) ==
      Failures(messages[..k], ds[..k]) + (if ds[k] == Moved then [] else [messages[k]])
  {
    assert messages[..k + 1][..k] == messages[..k] && ds[..k + 1][..k] == ds[..k];
  }

  // ---- conservation ----------------------------------------------------------------------------------

  /** Over both queues, a message is gained only by a duplication and lost only as poison. */
  lemma Conserved<T>(main: multiset<T>, dlq: multiset<T>, messages: seq<T>, ds: seq<Disposition>, m: T)
    requires |ds| == |messages| && multiset(messages) <= dlq
    ensures MainAfter(main, messages, ds)[m] + DlqAfter(dlq, messages, ds)[m] + Count(messages, ds, m, {Dropped}) ==
      main[m] + dlq[m] + Count(messages, ds, m, {Duplicated})
  {
    CountsOf(main, dlq, messages, ds, m);
    CountSplits(messages, ds, m, {Moved}, {Duplicated});
    CountSplits(messages, ds, m, {Moved}, {Dropped});
    assert {Moved} + {Duplicated} == {Moved, Duplicated} && {Moved} + {Dropped} == {Moved, Dropped};
  }

  lemma {:induction false} NonePoison<T>(poison: T -> bool, messages: seq<T>, calls: seq<Calls>, m: T)
    requires |calls| == |messages| && !poison(m)
    ensures Count(messages, Disposals(poison, messages, calls), m, {Dropped}) == 0
  {
    if messages != [] {
      var n := |messages| - 1;
      NonePoison(poison, messages[..n], calls[..n], m);
      assert Disposals(poison, messages, calls)[..n] == Disposals(poison, messages[..n], calls[..n]);
    }
  }

  /** A message that is not poison is never lost, whatever fails, and when nothing fails it
      is moved as often as it was received. */
  lemma NothingGoodIsLost<T>(main: multiset<T>, dlq: multiset<T>, poison: T -> bool, messages: seq<T>,
                             calls: seq<Calls>, m: T)
    requires |calls| == |messages| && multiset(messages) <= dlq && !poison(m)
    ensures var ds := Disposals(poison, messages, calls);
      && MainAfter(main, messages, ds)[m] + DlqAfter(dlq, messages, ds)[m] >= main[m] + dlq[m]
      && ((forall k :: 0 <= k < |calls| ==> calls[k] == ALL_WELL) ==>
           && MainAfter(main, messages, ds)[m] == main[m] + multiset(messages)[m]
           && DlqAfter(dlq, messages, ds)[m] == dlq[m] - multiset(messages)[m])
  {
    hide Count, Disposals, MainAfter, DlqAfter;
    var ds := Disposals(poison, messages, calls);
    NonePoison(poison, messages, calls, m);
    Conserved(main, dlq, messages, ds, m);
    if forall k :: 0 <= k < |calls| ==> calls[k] == ALL_WELL {
      CountsOf(main, dlq, messages, ds, m);
      AllMoved(poison, messages, calls, m, {Moved, Duplicated});
      AllMoved(poison, messages, calls, m, {Moved, Dropped});
    }
  }

  lemma {:induction false} AllMoved<T>(poison: T -> bool, messages: seq<T>, calls: seq<Calls>, m: T,
                                       ends: set<Disposition>)
    requires |calls| == |messages| && !poison(m)
    requires Moved in ends && forall k :: 0 <= k < |calls| ==> calls[k] == ALL_WELL
    ensures Count(messages, Disposals(poison, messages, calls), m, ends) == multiset(messages)[m]
  {
    if messages != [] {
      var n := |messages| - 1;
      AllMoved(poison, messages[..n], calls[..n], m, ends);
      assert Disposals(poison, messages, calls)[..n] == Disposals(poison, messages[..n], calls[..n]);
      assert messages == messages[..n] + [messages[n]];
    }
  }

  // ---- by the calls made ------------------------------------------------------------------------------

  /** The copies of a message that were sent: decoded, no poison, and the call went through. */
  ghost function SentOnes<T(!new)>(poison: T -> bool, messages: seq<T>, calls: seq<Calls>, m: T): set<int>
    requires |calls| == |messages|
  {
    set k | 0 <= k < |messages| && messages[k] == m && calls[k].decode && !poison(messages[k]) && calls[k].send
  }

  /** The copies of a message that were completed: those sent, and poison without more ado. */
  ghost function CompletedOnes<T(!new)>(poison: T -> bool, messages: seq<T>, calls: seq<Calls>, m: T): set<int>
    requires |calls| == |messages|
  {
    set k | 0 <= k < |messages| && messages[k] == m && calls[k].decode && (poison(messages[k]) || calls[k].send)
      && calls[k].complete
  }

  ghost function Those<T(!new)>(messages: seq<T>, ds: seq<Disposition>, m: T, ends: set<Disposition>): set<int>
    requires |ds| == |messages|
  {
    set k | 0 <= k < |messages| && messages[k] == m && ds[k] in ends
  }

  lemma {:induction false} CountIsSize<T(!new)>(messages: seq<T>, ds: seq<Disposition>, m: T, ends: set<Disposition>)
    requires |ds| == |messages|
    ensures Count(messages, ds, m, ends) == |Those(messages, ds, m, ends)|
  {
    if messages == [] {
      assert Those(messages, ds, m, ends) == {};
    } else {
      var n := |messages| - 1;
      CountIsSize(messages[..n], ds[..n], m, ends);
      CountLast(messages, ds, m, ends);
      assert Those(messages, ds, m, ends) ==
        Those(messages[..n], ds[..n], m, ends) + if messages[n] == m && ds[n] in ends then {n} else {};
    }
  }

  /** What a replay does to each message, by the calls that went through: every copy sent
      arrives in the main queue, every copy completed leaves the dead letters, and poison
      does so without being sent. Reported as failed are all but those both sent and
      completed. */
  lemma ReplayByCalls<T(!new)>(main: multiset<T>, dlq: multiset<T>, poison: T -> bool, messages: seq<T>,
                               calls: seq<Calls>, m: T)
    requires |calls| == |messages| && multiset(messages) <= dlq
    ensures var ds := Disposals(poison, messages, calls);
      && MainAfter(main, messages, ds)[m] == main[m] + |SentOnes(poison, messages, calls, m)|
      && DlqAfter(dlq, messages, ds)[m] + |CompletedOnes(poison, messages, calls, m)| == dlq[m]
      && multiset(Failures(messages, ds))[m] + (if poison(m) then 0 else |CompletedOnes(poison, messages, calls, m)|)
        == multiset(messages)[m]
  {
    var ds := Disposals(poison, messages, calls);
    assert Those(messages, ds, m, {Moved, Duplicated}) == SentOnes(poison, messages, calls, m);
    assert Those(messages, ds, m, {Moved, Dropped}) == CompletedOnes(poison, messages, calls, m);
    assert Those(messages, ds, m, {Moved}) ==
      if poison(m) then {} else CompletedOnes(poison, messages, calls, m);
    hide Count, Disposals, MainAfter, DlqAfter, Failures, Those, SentOnes, CompletedOnes;
    CountsOf(main, dlq, messages, ds, m);
    CountIsSize(messages, ds, m, {Moved, Duplicated});
    CountIsSize(messages, ds, m, {Moved, Dropped});
    CountIsSize(messages, ds, m, {Moved});
    FailuresCount(messages, ds, m);
  }

  lemma {:induction false} FailuresCount<T>(messages: seq<T>, ds: seq<Disposition>, m: T)
    requires |ds| == |messages|
    ensures multiset(Failures(messages, ds))[m] + Count(messages, ds, m, {Moved}) == multiset(messages)[m]
  {
    if messages != [] {
      var n := |messages| - 1;
      FailuresCount(messages[..n], ds[..n], m);
      CountLast(messages, ds, m, {Moved});
      LastCounts(messages, m);
    }
  }

  // ---- a replay is protocol steps ----------------------------------------------------------------------

  /** What replay does to one dead letter that it does not leave alone is a protocol step. */
  lemma ResultDisposalIsStep(batches: Batches, s: State, m: Message, calls: Calls)
    requires m in s.resultsDlq && !Dispose(PoisonResult, m, calls).Left?
    ensures var d, step := Dispose(PoisonResult, m, calls), ReplayResult(m, calls.complete);
      Enabled(batches, s, step) && Do(batches, s, step) ==
          s.(results := Sent(s.results, m, d), resultsDlq := Completed(s.resultsDlq, m, d))
  {
    hide IsPoison;
  }

  lemma RunDisposalIsStep(batches: Batches, s: State, id: string, calls: Calls)
    requires id in s.runsDlq && !Dispose(PoisonRun, id, calls).Left?
    ensures var d, step := Dispose(PoisonRun, id, calls), ReplayRun(id, calls.complete);
      Enabled(batches, s, step) && Do(batches, s, step) ==
          s.(runs := Sent(s.runs, id, d), runsDlq := Completed(s.runsDlq, id, d))
  {
  }

  /** A whole replay of the results queue is a sequence of protocol steps, at most one for
      each dead letter; so the duplicates it makes are absorbed like any others. */
  lemma {:induction false} ResultsReplayIsSteps(batches: Batches, steps: seq<Step>, messages: seq<Message>,
                                                calls: seq<Calls>)
    returns (more: seq<Step>)
    requires |calls| == |messages| && After(batches, steps).Some?
    requires multiset(messages) <= After(batches, steps).value.resultsDlq
    ensures |more| <= |messages|
    ensures var s, ds := After(batches, steps).value, Disposals(PoisonResult, messages, calls);
      After(batches, steps + more) ==
        Some(s.(results := MainAfter(s.results, messages, ds), resultsDlq := DlqAfter(s.resultsDlq, messages, ds)))
  {
    hide After, Disposals;
    var s, ds := After(batches, steps).value, Disposals(PoisonResult, messages, calls);
    if messages == [] {
      more := [];
      assert steps + [] == steps;
    } else {
      var n := |messages| - 1;
      StillThere(s.resultsDlq, messages, ds);
      DisposalsPrefix(PoisonResult, messages, calls);
      var before := ResultsReplayIsSteps(batches, steps, messages[..n], calls[..n]);
      DisposalAt(PoisonResult, messages, calls, n);
      hide Do, Enabled, Dispose, Sent, Completed, PoisonResult;
      if ds[n].Left? {
        NothingLeft(s.results, s.resultsDlq, messages, ds);
        more := before;
      } else {
        more := before + [ReplayResult(messages[n], calls[n].complete)];
        ResultDisposalIsStep(batches, After(batches, steps + before).value, messages[n], calls[n]);
        OneMore(batches, steps + before, ReplayResult(messages[n], calls[n].complete));
        assert steps + more == steps + before + [ReplayResult(messages[n], calls[n].complete)];
      }
    }
  }

  /** And so is a whole replay of the runs queue. */
  lemma {:induction false} RunsReplayIsSteps(batches: Batches, steps: seq<Step>, messages: seq<string>,
                                             calls: seq<Calls>)
    returns (more: seq<Step>)
    requires |calls| == |messages| && After(batches, steps).Some?
    requires multiset(messages) <= After(batches, steps).value.runsDlq
    ensures |more| <= |messages|
    ensures var s, ds := After(batches, steps).value, Disposals(PoisonRun, messages, calls);
      After(batches, steps + more) ==
        Some(s.(runs := MainAfter(s.runs, messages, ds), runsDlq := DlqAfter(s.runsDlq, messages, ds)))
  {
    hide After, Disposals;
    var s, ds := After(batches, steps).value, Disposals(PoisonRun, messages, calls);
    if messages == [] {
      more := [];
      assert steps + [] == steps;
    } else {
      var n := |messages| - 1;
      StillThere(s.runsDlq, messages, ds);
      DisposalsPrefix(PoisonRun, messages, calls);
      var before := RunsReplayIsSteps(batches, steps, messages[..n], calls[..n]);
      DisposalAt(PoisonRun, messages, calls, n);
      hide Do, Enabled, Dispose, Sent, Completed, PoisonRun;
      if ds[n].Left? {
        NothingLeft(s.runs, s.runsDlq, messages, ds);
        more := before;
      } else {
        more := before + [ReplayRun(messages[n], calls[n].complete)];
        RunDisposalIsStep(batches, After(batches, steps + before).value, messages[n], calls[n]);
        OneMore(batches, steps + before, ReplayRun(messages[n], calls[n].complete));
        assert steps + more == steps + before + [ReplayRun(messages[n], calls[n].complete)];
      }
    }
  }

  lemma NothingLeft<T>(main: multiset<T>, dlq: multiset<T>, messages: seq<T>, ds: seq<Disposition>)
    requires |ds| == |messages| && messages != [] && ds[|ds| - 1].Left?
    ensures var n := |messages| - 1;
      MainAfter(main, messages, ds) == MainAfter(main, messages[..n], ds[..n])
          && DlqAfter(dlq, messages, ds) == DlqAfter(dlq, messages[..n], ds[..n])
  {
  }

  lemma DisposalsPrefix<T>(poison: T -> bool, messages: seq<T>, calls: seq<Calls>)
    requires |calls| == |messages| && messages != []
    ensures var n := |messages| - 1;
      Disposals(poison, messages, calls)[..n] == Disposals(poison, messages[..n], calls[..n])
  {
  }
}
