/**
 What the exporter guarantees over every run: flush soundness, shutdown
 completeness and event accounting.
 */
module ExporterTheorems {

  import opened Exporter
  import opened ExporterInvariant

  // -- what never goes back -----------------------------------------------

  /** Sends only append, and a call of `flush` keeps what it recorded when it began. */
  ghost predicate Advances(s: State, t: State) {
    && s.log.sent <= t.log.sent
    && s.log.batches <= t.log.batches
    && (s.log.sealed ==> t.log.sealed)
    && (forall f | f in s.flushers :: f in t.flushers && t.flushers[f].began == s.flushers[f].began)
  }

  lemma EnqueueAdvances(c: Config, s: State, call: nat)
    requires EnqueueEnabled(s, call)
    ensures Advances(s, Enqueue(c, s, call))
  {
    EnqueueHasEffect(c, s, call);
  }

  lemma FlushAdvances(c: Config, s: State, id: nat)
    requires FlushEnabled(s, id)
    ensures Advances(s, Flush(c, s, id))
  {
  }

  lemma CloseAdvances(s: State, id: nat)
    requires CloseEnabled(s, id)
    ensures Advances(s, Close(s, id))
  {
  }

  lemma CollectAdvances(c: Config, s: State, ok: bool)
    requires Collecting(s.worker.phase)
    ensures Advances(s, Work(c, s, ok))
  {
  }

  lemma ReportAdvances(c: Config, s: State, ok: bool)
    requires WorkerEnabled(s) && !Collecting(s.worker.phase)
    ensures Advances(s, Work(c, s, ok))
  {
  }

  lemma StepAdvances(c: Config, s: State, step: Step)
    requires Enabled(s, step)
    ensures Advances(s, Apply(c, s, step))
  {
    match step
    case EnqueueStep(call) => EnqueueAdvances(c, s, call);
    case FlushStep(id) => FlushAdvances(c, s, id);
    case FlushTimeout(id) =>
    case CloseStep(id) => CloseAdvances(s, id);
    case CloseTimeout(id) =>
    case WorkerStep(ok) =>
      if Collecting(s.worker.phase) { CollectAdvances(c, s, ok); } else { ReportAdvances(c, s, ok); }
    case DropHandles =>
  }

  lemma {:induction false} RunAdvances(c: Config, run: seq<State>, steps: seq<Step>, i: nat, j: nat)
    requires IsRun(c, run, steps) && i <= j < |run|
    ensures Advances(run[i], run[j])
    decreases j
  {
    if i < j {
      RunAdvances(c, run, steps, i, j - 1);
      StepAdvances(c, run[j - 1], steps[j - 1]);
      assert run[j] == Apply(c, run[j - 1], steps[j - 1]);
    }
  }

  // -- flush --------------------------------------------------------------

  /** In every interleaving, a flush that answers Ok covers every event sent before it began:
      all of them have been exported or counted as failed, and its statistics say so. */
  lemma FlushSound(c: Config, run: seq<State>, steps: seq<Step>, i: nat, j: nat, f: nat)
    requires ValidConfig(c) && IsRun(c, run, steps) && i < j < |run|
    requires steps[i] == FlushStep(f) && f !in run[i].flushers
    requires f in run[j].flushers && run[j].flushers[f].FlushOk?
    ensures run[i].log.sent <= Processed(run[j])
    ensures var answer := run[j].flushers[f].stats;
            |run[i].log.sent| <= answer.exported + answer.failed <= |Processed(run[j])|
    ensures forall p | p in run[i].producers && Tallied(CallsAccepted, run[i].producers[p]) ::
              p in Processed(run[j])
  {
    RunInv(c, run, steps, i);
    RunInv(c, run, steps, j);
    assert run[i + 1] == Apply(c, run[i], steps[i]);
    RunAdvances(c, run, steps, i, j);
    RunAdvances(c, run, steps, i + 1, j);
    assert FlusherFits(run[j], run[j].flushers[f]);
    assert |run[i].log.sent| <= |Processed(run[j])|;
    assert run[i].log.sent == Processed(run[j])[..|run[i].log.sent|];
  }

  // -- shutdown -----------------------------------------------------------

  lemma EnqueueQuiet(c: Config, s: State, call: nat)
    requires EnqueueEnabled(s, call) && Quiet(s)
    ensures Enqueue(c, s, call).log.sent == s.log.sent
  {
    EnqueueHasEffect(c, s, call);
  }

  lemma OtherStepsSendNothing(c: Config, s: State, step: Step)
    requires Enabled(s, step) && !step.EnqueueStep?
    ensures Apply(c, s, step).log.sent == s.log.sent
  {
    match step
    case WorkerStep(ok) => WorkSendsNothing(c, s, ok);
    case _ =>
  }

  lemma WorkSendsNothing(c: Config, s: State, ok: bool)
    requires WorkerEnabled(s)
    ensures Work(c, s, ok).log.sent == s.log.sent
  {
    if Collecting(s.worker.phase) { CollectSendsNothing(c, s, ok); } else { ReportSendsNothing(c, s, ok); }
  }

  lemma CollectSendsNothing(c: Config, s: State, ok: bool)
    requires Collecting(s.worker.phase)
    ensures Work(c, s, ok).log.sent == s.log.sent
  {
  }

  lemma ReportSendsNothing(c: Config, s: State, ok: bool)
    requires WorkerEnabled(s) && !Collecting(s.worker.phase)
    ensures Work(c, s, ok).log.sent == s.log.sent
  {
  }

  lemma SealedStepSendsNothing(c: Config, s: State, step: Step)
    requires Enabled(s, step) && Quiet(s)
    ensures Apply(c, s, step).log.sent == s.log.sent
  {
    if step.EnqueueStep? { EnqueueQuiet(c, s, step.call); } else { OtherStepsSendNothing(c, s, step); }
  }

  lemma SealedStaysQuiet(c: Config, run: seq<State>, steps: seq<Step>, i: nat, j: nat)
    requires ValidConfig(c) && IsRun(c, run, steps) && i <= j < |run| && run[i].log.sealed
    ensures Quiet(run[j])
  {
    RunAdvances(c, run, steps, i, j);
    RunInv(c, run, steps, j);
  }

  /** Once a shutdown caller has seen the in-flight count at 0, no event is ever sent again. */
  lemma {:induction false} NoSendAfterBarrier(c: Config, run: seq<State>, steps: seq<Step>, i: nat, j: nat, k: nat)
    requires ValidConfig(c) && IsRun(c, run, steps) && i < j < |run|
    requires steps[i] == CloseStep(k) && k in run[i].closers && run[i].closers[k].CloseWaiting?
    ensures run[j].log.sent == run[i].log.sent
    decreases j
  {
    if j == i + 1 {
      OtherStepsSendNothing(c, run[i], steps[i]);
    } else {
      NoSendAfterBarrier(c, run, steps, i, j - 1, k);
      assert run[i + 1] == Apply(c, run[i], steps[i]);
      SealedStaysQuiet(c, run, steps, i + 1, j - 1);
      SealedStepSendsNothing(c, run[j - 1], steps[j - 1]);
    }
  }

  /** When the worker has left its loop the channel is empty, every sent event was handed to the
      exporter and counted, and the exporter's `shutdown` has run exactly once; until it leaves the
      loop that `shutdown` has not run. */
  lemma ShutdownComplete(c: Config, run: seq<State>, steps: seq<Step>, j: nat)
    requires ValidConfig(c) && IsRun(c, run, steps) && j < |run|
    ensures var s := run[j];
            s.worker.phase.Exited? ==>
              && s.io.events == [] && s.log.sent == Processed(s)
              && s.stats.accepted == s.stats.exported + s.stats.failed == |s.log.sent|
              && s.log.exporterShutdowns == 1 && s.front.gate == Closed
    ensures !Finishing(run[j].worker.phase) ==> run[j].log.exporterShutdowns == 0
    ensures run[j].log.exporterShutdowns <= 1
  {
    RunInv(c, run, steps, j);
  }

  /** A `shutdown` that answers Ok reports final figures: everything accepted was exported or failed. */
  lemma ShutdownOkIsFinal(c: Config, run: seq<State>, steps: seq<Step>, j: nat, k: nat)
    requires ValidConfig(c) && IsRun(c, run, steps) && j < |run|
    requires k in run[j].closers && run[j].closers[k].CloseOk?
    ensures var answer := run[j].closers[k].stats;
            answer.accepted == answer.exported + answer.failed == |run[j].log.sent|
    ensures run[j].worker.phase.Exited? && run[j].log.sent == Processed(run[j])
    ensures run[j].log.exporterShutdowns == 1
  {
    RunInv(c, run, steps, j);
    assert CloserFits(run[j], k, run[j].closers[k]);
  }

  /** However many callers race, the shutdown target is always admitted: the branch that reports
      "export worker stopped" is never taken. */
  lemma ShutdownSendNeverFails(c: Config, run: seq<State>, steps: seq<Step>, j: nat, k: nat)
    requires ValidConfig(c) && IsRun(c, run, steps) && j < |run|
    requires k in run[j].closers
    ensures !run[j].closers[k].CloseSendFailed?
    ensures run[j].closers[k].CloseTarget? ==>
              && run[j].io.shutdowns == [] && !run[j].worker.phase.Exited?
              && run[j].closers[k].target == |run[j].log.sent|
    ensures forall m | m in run[j].closers && m != k ::
              run[j].closers[k].CloseTarget? ==> !run[j].closers[m].CloseTarget?
  {
    RunInv(c, run, steps, j);
    assert CloserFits(run[j], k, run[j].closers[k]);
    assert forall m | m in run[j].closers :: CloserFits(run[j], m, run[j].closers[m]);
  }

  // -- accounting ---------------------------------------------------------

  /** In every reachable state the sent events are the exported and failed ones, the worker's batch
      and the queue, in send order; they are also the counted ones and those not counted yet; and
      batches are consecutive slices of the send order within the configured size. */
  lemma EventAccounting(c: Config, run: seq<State>, steps: seq<Step>, j: nat)
    requires ValidConfig(c) && IsRun(c, run, steps) && j < |run|
    ensures var s := run[j];
            && s.log.sent == Flatten(s.log.batches) + s.worker.batch + s.io.events
            && s.stats.exported + s.stats.failed == |Flatten(s.log.batches)|
            && |s.log.sent| == s.stats.accepted + |Where(s.producers, CallsUncounted)|
            && (forall b | b in s.log.batches :: 0 < |b| <= c.maxBatch)
            && |s.io.events| <= c.queueCapacity
            && s.stats.accepted == |Where(s.producers, CallsAccepted)|
            && s.stats.dropped == |Where(s.producers, CallsDropped)|
    ensures forall a, b | 0 <= a < b < |run[j].log.sent| :: run[j].log.sent[a] != run[j].log.sent[b]
  {
    RunInv(c, run, steps, j);
  }

  /** With no call in progress, every call was counted in exactly one of `accepted` and `dropped`. */
  lemma EveryCallCountedOnce(c: Config, run: seq<State>, steps: seq<Step>, j: nat)
    requires ValidConfig(c) && IsRun(c, run, steps) && j < |run| && run[j].front.inFlight == 0
    ensures run[j].stats.accepted + run[j].stats.dropped == |run[j].producers|
    ensures Where(run[j].producers, CallsAccepted) !! Where(run[j].producers, CallsDropped)
    ensures forall p | p in run[j].producers ::
              p in run[j].log.sent <==> p in Where(run[j].producers, CallsAccepted)
  {
    RunInv(c, run, steps, j);
    NoneInFlight(run[j]);
    FinishedCalls(run[j]);
  }

  lemma FinishedCalls(s: State)
    requires Accounting(s) && forall p | p in s.producers :: !InFlight(s.producers[p])
    ensures s.stats.accepted + s.stats.dropped == |s.producers|
    ensures Where(s.producers, CallsAccepted) !! Where(s.producers, CallsDropped)
  {
    var yes, no := Where(s.producers, CallsAccepted), Where(s.producers, CallsDropped);
    assert yes !! no && yes + no == s.producers.Keys;
    assert |s.producers| == |s.producers.Keys| == |yes + no| == |yes| + |no|;
  }

  /** Exactly when more events have been processed than counted as accepted: more sent events are still
      uncounted than wait in the queue and the worker's batch. */
  lemma ProcessedExceedsAcceptedIff(c: Config, run: seq<State>, steps: seq<Step>, j: nat)
    requires ValidConfig(c) && IsRun(c, run, steps) && j < |run|
    ensures var s := run[j];
            s.stats.exported + s.stats.failed > s.stats.accepted <==>
              |s.worker.batch| + |s.io.events| < |Where(s.producers, CallsUncounted)|
  {
    EventAccounting(c, run, steps, j);
    var s := run[j];
    assert |s.log.sent| == |Flatten(s.log.batches)| + |s.worker.batch| + |s.io.events|;
  }

  // -- why counting accepted events alone would not do --------------------

  lemma Extend(c: Config, run: seq<State>, steps: seq<Step>, step: Step) returns (r: seq<State>, t: seq<Step>)
    requires IsRun(c, run, steps) && Enabled(run[|run| - 1], step)
    ensures IsRun(c, r, t) && r[|r| - 1] == Apply(c, run[|run| - 1], step)
  {
    r, t := run + [Apply(c, run[|run| - 1], step)], steps + [step];
  }

  /** A producer has sent its event and not yet counted it. */
  lemma SentUncounted(c: Config) returns (run: seq<State>, steps: seq<Step>)
    requires ValidConfig(c)
    ensures IsRun(c, run, steps)
    ensures var s := run[|run| - 1];
            && s.io.events == [0] && s.stats == ZERO_STATS && s.worker == INIT.worker
            && s.io.shutdowns == [] && s.io.flushes == []
  {
    run, steps := [INIT], [];
    run, steps := Extend(c, run, steps, EnqueueStep(0));
    run, steps := Extend(c, run, steps, EnqueueStep(0));
    run, steps := Extend(c, run, steps, EnqueueStep(0));
  }

  /** The worker has received that event and is about to export it. */
  lemma AboutToExport(c: Config) returns (run: seq<State>, steps: seq<Step>)
    requires ValidConfig(c)
    ensures IsRun(c, run, steps)
    ensures var s := run[|run| - 1];
            s.worker.phase.Export? && s.worker.batch == [0] && s.stats == ZERO_STATS
  {
    run, steps := SentUncounted(c);
    var s := run[|run| - 1];
    run, steps := Extend(c, run, steps, WorkerStep(true));
    assert run[|run| - 1] == Goto(s, PollFlush);
    run, steps := Extend(c, run, steps, WorkerStep(true));
    assert run[|run| - 1] == Goto(Goto(s, PollFlush), Receive);
    run, steps := Extend(c, run, steps, WorkerStep(true));
    run, steps := Extend(c, run, steps, WorkerStep(true));
  }

  /** The worker can export an event its producer has not counted: `exported` overtakes `accepted`. */
  lemma ExportedCanOvertakeAccepted(c: Config) returns (run: seq<State>, steps: seq<Step>)
    requires ValidConfig(c)
    ensures IsRun(c, run, steps)
    ensures run[|run| - 1].stats.exported > run[|run| - 1].stats.accepted
  {
    run, steps := AboutToExport(c);
    run, steps := Extend(c, run, steps, WorkerStep(true));
  }
}
