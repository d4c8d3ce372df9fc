/**
 What the exporter's statistics count, figure by figure, over every run, and
 what an answered `flush` or `shutdown` reports.
 */
module ExporterFigures {

  import opened Wrappers
  import opened Exporter
  import opened ExporterInvariant
  import opened ExporterTheorems
  import opened ExporterProgress

  // -- what each figure counts --------------------------------------------

  datatype Figure = Exported | Failed | Refusals | Sends | Losses

  /** What one step adds to a figure, read off the state before it. */
  function Adds(c: Config, s: State, step: Step, figure: Figure): nat {
    match figure
    case Exported => if step == WorkerStep(true) && s.worker.phase.Export? then |s.worker.batch| else 0
    case Failed => if step == WorkerStep(false) && s.worker.phase.Export? then |s.worker.batch| else 0
    case Refusals => One(Reads(s, step) && s.front.gate != Open)
    case Sends => One(Tries(s, step) && |s.io.events| < c.queueCapacity && !s.worker.phase.Exited?)
    case Losses =>
      One((Reads(s, step) && s.front.gate != Open)
          || (Tries(s, step) && (|s.io.events| >= c.queueCapacity || s.worker.phase.Exited?)))
  }

  /** A call of `enqueue` reads the gate. */
  predicate Reads(s: State, step: Step) {
    step.EnqueueStep? && step.call in s.producers && s.producers[step.call].Entered?
  }

  /** A call of `enqueue` that found the gate open tries to send. */
  predicate Tries(s: State, step: Step) {
    step.EnqueueStep? && step.call in s.producers && s.producers[step.call].Admitted?
  }

  /** The sum over the first `n` steps of a run. */
  function Total(c: Config, run: seq<State>, steps: seq<Step>, n: nat, figure: Figure): nat
    requires n <= |steps| && |run| == |steps| + 1
  {
    if n == 0 then 0 else Total(c, run, steps, n - 1, figure) + Adds(c, run[n - 1], steps[n - 1], figure)
  }

  /** The counter of a figure, with the calls that have not counted themselves yet. */
  function Value(s: State, figure: Figure): nat {
    match figure
    case Exported => s.stats.exported
    case Failed => s.stats.failed
    case Refusals => s.stats.rejected + |Where(s.producers, CallsRefused)|
    case Sends => |s.log.sent|
    case Losses => s.stats.dropped + |Where(s.producers, CallsTurnedAway)|
  }

  lemma MoveCounts(s: State, call: nat, to: Producer)
    ensures var m := MoveProducer(s, call, to).producers;
            && |Where(m, CallsRefused)| == |Where(s.producers, CallsRefused)|
                 - One(call in s.producers && Tallied(CallsRefused, s.producers[call])) + One(Tallied(CallsRefused, to))
            && |Where(m, CallsTurnedAway)| == |Where(s.producers, CallsTurnedAway)|
                 - One(call in s.producers && Tallied(CallsTurnedAway, s.producers[call]))
                 + One(Tallied(CallsTurnedAway, to))
  {
    WhereUpdate(s.producers, call, to, CallsRefused);
    WhereUpdate(s.producers, call, to, CallsTurnedAway);
  }

  lemma EnqueueAdds(c: Config, s: State, call: nat, figure: Figure)
    requires EnqueueEnabled(s, call)
    ensures Value(Enqueue(c, s, call), figure) == Value(s, figure) + Adds(c, s, EnqueueStep(call), figure)
  {
    var t := Enqueue(c, s, call);
    EnqueueMoves(c, s, call);
    MoveCounts(s, call, t.producers[call]);
  }

  /** A step of `enqueue` moves its own call. */
  lemma EnqueueMoves(c: Config, s: State, call: nat)
    requires EnqueueEnabled(s, call)
    ensures var t := Enqueue(c, s, call);
            call in t.producers && t.producers == MoveProducer(s, call, t.producers[call]).producers
  {
    EnqueueHasEffect(c, s, call);
  }

  lemma WorkAdds(c: Config, s: State, ok: bool, figure: Figure)
    requires WorkerEnabled(s)
    ensures Value(Work(c, s, ok), figure) == Value(s, figure) + Adds(c, s, WorkerStep(ok), figure)
  {
    WorkFrames(c, s, ok);
    WorkCountsExports(c, s, ok);
  }

  lemma WorkFrames(c: Config, s: State, ok: bool)
    requires WorkerEnabled(s)
    ensures var t := Work(c, s, ok);
            t.producers == s.producers && t.log.sent == s.log.sent
            && t.stats.dropped == s.stats.dropped && t.stats.rejected == s.stats.rejected
  {
  }

  lemma WorkCountsExports(c: Config, s: State, ok: bool)
    requires WorkerEnabled(s)
    ensures var t, n := Work(c, s, ok), if s.worker.phase.Export? then |s.worker.batch| else 0;
            && t.stats.exported == s.stats.exported + (if ok then n else 0)
            && t.stats.failed == s.stats.failed + (if ok then 0 else n)
  {
  }

  lemma StepAdds(c: Config, s: State, step: Step, figure: Figure)
    requires Enabled(s, step)
    ensures Value(Apply(c, s, step), figure) == Value(s, figure) + Adds(c, s, step, figure)
  {
    match step
    case EnqueueStep(call) => EnqueueAdds(c, s, call, figure);
    case FlushStep(id) => FlushFrames(c, s, id);
    case CloseStep(id) => CloseFrames(s, id);
    case WorkerStep(ok) => WorkAdds(c, s, ok, figure);
    case _ =>
  }

  lemma {:induction false} FigureIsTotal(c: Config, run: seq<State>, steps: seq<Step>, j: nat, figure: Figure)
    requires IsRun(c, run, steps) && j < |run|
    ensures Value(run[j], figure) == Total(c, run, steps, j, figure)
  {
    if j > 0 {
      FigureIsTotal(c, run, steps, j - 1, figure);
      StepAdds(c, run[j - 1], steps[j - 1], figure);
    }
  }

  /** Over every run: `exported` is the length of the batches whose exporter call succeeded and
      `export_failed` that of those whose call failed; the calls that read a gate not open are those
      counted as rejected or about to be; exactly the calls that found it open and the queue not full
      have sent; and all others are counted as dropped or about to be. */
  lemma FiguresAreExact(c: Config, run: seq<State>, steps: seq<Step>, j: nat)
    requires IsRun(c, run, steps) && j < |run|
    ensures run[j].stats.exported == Total(c, run, steps, j, Exported)
    ensures run[j].stats.failed == Total(c, run, steps, j, Failed)
    ensures run[j].stats.rejected + |Where(run[j].producers, CallsRefused)| == Total(c, run, steps, j, Refusals)
    ensures |run[j].log.sent| == Total(c, run, steps, j, Sends)
    ensures run[j].stats.dropped + |Where(run[j].producers, CallsTurnedAway)| == Total(c, run, steps, j, Losses)
  {
    FigureIsTotal(c, run, steps, j, Exported);
    FigureIsTotal(c, run, steps, j, Failed);
    FigureIsTotal(c, run, steps, j, Refusals);
    FigureIsTotal(c, run, steps, j, Sends);
    FigureIsTotal(c, run, steps, j, Losses);
  }

  /** The worker exports a batch short of its size only when the queue ran empty. */
  lemma ShortBatchMeansEmptyQueue(c: Config, run: seq<State>, steps: seq<Step>, i: nat)
    requires ValidConfig(c) && IsRun(c, run, steps) && i < |steps| && steps[i].WorkerStep?
    requires !run[i].worker.phase.Export? && run[i + 1].worker.phase.Export?
    ensures run[i].worker.batch == run[i + 1].worker.batch
    ensures |run[i].worker.batch| == c.maxBatch || run[i].io.events == []
  {
    EntersExport(c, run[i], steps[i].succeeds);
    RunInv(c, run, steps, i);
    assert run[i + 1] == Apply(c, run[i], steps[i]);
  }

  lemma EntersExport(c: Config, s: State, ok: bool)
    requires WorkerEnabled(s) && !s.worker.phase.Export? && Work(c, s, ok).worker.phase.Export?
    ensures Work(c, s, ok).worker.batch == s.worker.batch
    ensures |s.worker.batch| >= c.maxBatch || s.io.events == []
  {
    if !s.worker.phase.Fill? { OnlyFillExports(c, s, ok); }
  }

  lemma OnlyFillExports(c: Config, s: State, ok: bool)
    requires WorkerEnabled(s) && !s.worker.phase.Fill?
    ensures !Work(c, s, ok).worker.phase.Export?
  {
    if Collecting(s.worker.phase) { CollectExports(c, s, ok); } else { ReportExports(c, s, ok); }
  }

  lemma CollectExports(c: Config, s: State, ok: bool)
    requires Collecting(s.worker.phase) && !s.worker.phase.Fill?
    ensures !Work(c, s, ok).worker.phase.Export?
  {
  }

  lemma ReportExports(c: Config, s: State, ok: bool)
    requires WorkerEnabled(s) && !Collecting(s.worker.phase)
    ensures !Work(c, s, ok).worker.phase.Export?
  {
  }

  // -- what an answer reports ---------------------------------------------

  /** The figures of `stats` in the order they are read. */
  function Field(st: Stats, k: nat): nat {
    match k
    case 0 => st.accepted
    case 1 => st.dropped
    case 2 => st.exported
    case 3 => st.failed
    case _ => st.rejected
  }

  /** The counter stood at `v` in some state from `lo` to `hi`. */
  ghost predicate Stood(run: seq<State>, lo: nat, hi: nat, v: nat, k: nat) {
    exists m :: lo <= m <= hi && m < |run| && v == Field(run[m].stats, k)
  }

  /** The first `n` figures were read between `lo` and `hi`. */
  ghost predicate Sampled(run: seq<State>, lo: nat, hi: nat, st: Stats, n: nat) {
    forall k | 0 <= k < n :: Stood(run, lo, hi, Field(st, k), k)
  }

  lemma SampledLater(run: seq<State>, lo: nat, hi: nat, st: Stats, n: nat)
    requires Sampled(run, lo, hi, st, n)
    ensures Sampled(run, lo, hi + 1, st, n)
  {
    forall k | 0 <= k < n ensures Stood(run, lo, hi + 1, Field(st, k), k) {
      assert Stood(run, lo, hi, Field(st, k), k);
      var m :| lo <= m <= hi && m < |run| && Field(st, k) == Field(run[m].stats, k);
    }
  }

  /** Reading one more figure. */
  lemma SampledNext(run: seq<State>, lo: nat, hi: nat, st: Stats, n: nat)
    requires Sampled(run, lo, hi, st, n) && n <= 4 && lo <= hi < |run|
    ensures Sampled(run, lo, hi + 1, LoadStat(run[hi].stats, st, n), n + 1)
  {
    SampledLater(run, lo, hi, st, n);
    var next := LoadStat(run[hi].stats, st, n);
    forall k | 0 <= k < n + 1 ensures Stood(run, lo, hi + 1, Field(next, k), k) {
      if k < n {
        assert Stood(run, lo, hi + 1, Field(st, k), k);
        assert Field(next, k) == Field(st, k);
      } else {
        assert Field(next, k) == Field(run[hi].stats, k);
      }
    }
  }

  /** A shutdown caller that waited in state `lo`. */
  ghost predicate CloserSampled(run: seq<State>, lo: nat, hi: nat, x: Closer) {
    match x
    case CloseJoining => true
    case CloseErr => true
    case CloseStats(n, st) => n <= 4 && Sampled(run, lo, hi, st, n)
    case CloseOk(st) => Sampled(run, lo, hi, st, 5)
    case _ => false
  }

  lemma OthersKeepCloser(c: Config, s: State, step: Step, k: nat)
    requires Enabled(s, step) && k in s.closers && step != CloseStep(k) && step != CloseTimeout(k)
    ensures k in Apply(c, s, step).closers && Apply(c, s, step).closers[k] == s.closers[k]
  {
    match step
    case EnqueueStep(call) => EnqueueHasEffect(c, s, call);
    case FlushStep(id) => FlushFrames(c, s, id);
    case WorkerStep(ok) => WorkKept(c, s, ok);
    case _ =>
  }

  lemma {:induction false} CloserReads(c: Config, run: seq<State>, steps: seq<Step>, lo: nat, hi: nat, k: nat)
    requires IsRun(c, run, steps) && lo <= hi < |run|
    requires k in run[lo].closers && run[lo].closers[k].CloseJoining?
    ensures k in run[hi].closers && CloserSampled(run, lo, hi, run[hi].closers[k])
    decreases hi
  {
    if lo < hi {
      var h := hi - 1;
      CloserReads(c, run, steps, lo, h, k);
      CloserStep(c, run, lo, h, steps[h], k);
    }
  }

  lemma CloserSampledLater(run: seq<State>, lo: nat, hi: nat, x: Closer)
    requires CloserSampled(run, lo, hi, x)
    ensures CloserSampled(run, lo, hi + 1, x)
  {
    if x.CloseStats? { SampledLater(run, lo, hi, x.stats, x.loaded); }
    if x.CloseOk? { SampledLater(run, lo, hi, x.stats, 5); }
  }

  lemma OwnCloserStep(run: seq<State>, lo: nat, hi: nat, k: nat)
    requires lo <= hi < |run| && CloseEnabled(run[hi], k)
    requires k in run[hi].closers && CloserSampled(run, lo, hi, run[hi].closers[k])
    ensures CloserSampled(run, lo, hi + 1, Close(run[hi], k).closers[k])
  {
    var x := run[hi].closers[k];
    if x.CloseStats? { SampledNext(run, lo, hi, x.stats, x.loaded); }
  }

  lemma CloserStep(c: Config, run: seq<State>, lo: nat, hi: nat, step: Step, k: nat)
    requires lo <= hi < |run| - 1 && Enabled(run[hi], step) && run[hi + 1] == Apply(c, run[hi], step)
    requires k in run[hi].closers && CloserSampled(run, lo, hi, run[hi].closers[k])
    ensures k in run[hi + 1].closers && CloserSampled(run, lo, hi + 1, run[hi + 1].closers[k])
  {
    if step == CloseStep(k) {
      OwnCloserStep(run, lo, hi, k);
    } else if step != CloseTimeout(k) {
      OthersKeepCloser(c, run[hi], step, k);
      CloserSampledLater(run, lo, hi, run[hi].closers[k]);
    }
  }

  /** What a `shutdown` that answers Ok reports: the batches exported and failed over the whole run, each
      by itself, everything sent as accepted, and figures of dropped and rejected calls that stood while
      it waited. */
  lemma ShutdownReports(c: Config, run: seq<State>, steps: seq<Step>, i: nat, j: nat, k: nat)
    requires ValidConfig(c) && IsRun(c, run, steps) && i <= j < |run|
    requires k in run[i].closers && run[i].closers[k].CloseJoining?
    requires k in run[j].closers && run[j].closers[k].CloseOk?
    ensures var answer := run[j].closers[k].stats;
            && answer.exported == Total(c, run, steps, j, Exported)
            && answer.failed == Total(c, run, steps, j, Failed)
            && answer.accepted == Total(c, run, steps, j, Sends)
            && (exists m :: i <= m <= j && answer.dropped == run[m].stats.dropped)
            && (exists m :: i <= m <= j && answer.rejected == run[m].stats.rejected)
  {
    RunInv(c, run, steps, j);
    FiguresAreExact(c, run, steps, j);
    CloserReads(c, run, steps, i, j, k);
    var answer := run[j].closers[k].stats;
    assert CloserFits(run[j], k, run[j].closers[k]);
    assert Stood(run, i, j, Field(answer, 1), 1) && Stood(run, i, j, Field(answer, 4), 4);
  }

  // -- what a flush reports -----------------------------------------------

  /** What was read for flush `f` since state `lo`, in which its command was not sent yet. */
  ghost predicate FlushSampled(run: seq<State>, lo: nat, hi: nat, s: State, f: nat) {
    && (PendingFor(s.worker, f) && s.worker.phase.Load? ==>
          s.worker.phase.loaded <= 4 && Sampled(run, lo, hi, s.worker.snapshot, s.worker.phase.loaded))
    && (PendingFor(s.worker, f) && s.worker.phase.Answer? ==> Sampled(run, lo, hi, s.worker.snapshot, 5))
    && (f in s.io.responses ==> Sampled(run, lo, hi, s.io.responses[f], 5))
    && (f in s.flushers && s.flushers[f].FlushOk? ==> Sampled(run, lo, hi, s.flushers[f].stats, 5))
  }

  lemma FlushSampledLater(run: seq<State>, lo: nat, hi: nat, s: State, f: nat)
    requires FlushSampled(run, lo, hi, s, f)
    ensures FlushSampled(run, lo, hi + 1, s, f)
  {
    if PendingFor(s.worker, f) && s.worker.phase.Load? {
      SampledLater(run, lo, hi, s.worker.snapshot, s.worker.phase.loaded);
    }
    if PendingFor(s.worker, f) && s.worker.phase.Answer? { SampledLater(run, lo, hi, s.worker.snapshot, 5); }
    if f in s.io.responses { SampledLater(run, lo, hi, s.io.responses[f], 5); }
    if f in s.flushers && s.flushers[f].FlushOk? { SampledLater(run, lo, hi, s.flushers[f].stats, 5); }
  }

  /** The parts a flush's figures pass through. */
  predicate SamePath(s: State, t: State, f: nat) {
    && t.worker == s.worker && t.io.responses == s.io.responses
    && (f in t.flushers && t.flushers[f].FlushOk? ==> f in s.flushers && s.flushers[f] == t.flushers[f])
  }

  lemma SamePathSampled(run: seq<State>, lo: nat, hi: nat, s: State, t: State, f: nat)
    requires FlushSampled(run, lo, hi, s, f) && SamePath(s, t, f)
    ensures FlushSampled(run, lo, hi, t, f)
  {
  }

  lemma OthersKeepPath(c: Config, s: State, step: Step, f: nat)
    requires Enabled(s, step) && !step.WorkerStep? && step != FlushStep(f)
    ensures SamePath(s, Apply(c, s, step), f)
  {
    match step
    case EnqueueStep(call) => EnqueueHasEffect(c, s, call);
    case FlushStep(id) => FlushFrames(c, s, id);
    case CloseStep(id) => CloseFrames(s, id);
    case _ =>
  }

  /** The caller takes its answer. */
  lemma OwnStepSampled(c: Config, run: seq<State>, lo: nat, hi: nat, s: State, f: nat)
    requires FlushSampled(run, lo, hi, s, f) && FlushEnabled(s, f)
    ensures FlushSampled(run, lo, hi, Flush(c, s, f), f)
  {
    FlushFrames(c, s, f);
  }

  /** One worker step; `s` is the state it reads. */
  lemma WorkSampled(c: Config, run: seq<State>, lo: nat, hi: nat, ok: bool, f: nat)
    requires lo <= hi < |run| && WorkerEnabled(run[hi]) && FlushSampled(run, lo, hi, run[hi], f)
    ensures FlushSampled(run, lo, hi + 1, Work(c, run[hi], ok), f)
  {
    var s := run[hi];
    FlushSampledLater(run, lo, hi, s, f);
    if s.worker.phase.Load? {
      LoadSampled(run, lo, hi, f);
    } else if s.worker.phase.Answer? {
      AnswerSampled(run, lo, hi + 1, s, f);
    } else {
      OtherWorkSampled(c, run, lo, hi + 1, s, ok, f);
    }
  }

  lemma LoadSampled(run: seq<State>, lo: nat, hi: nat, f: nat)
    requires lo <= hi < |run| && run[hi].worker.phase.Load?
    requires FlushSampled(run, lo, hi, run[hi], f) && FlushSampled(run, lo, hi + 1, run[hi], f)
    ensures FlushSampled(run, lo, hi + 1, DoLoad(run[hi], run[hi].worker.phase.loaded), f)
  {
    var w := run[hi].worker;
    if PendingFor(w, f) { SampledNext(run, lo, hi, w.snapshot, w.phase.loaded); }
  }

  lemma AnswerSampled(run: seq<State>, lo: nat, hi: nat, s: State, f: nat)
    requires s.worker.phase.Answer? && FlushSampled(run, lo, hi, s, f)
    ensures FlushSampled(run, lo, hi, DoAnswer(s), f)
  {
  }

  lemma OtherWorkSampled(c: Config, run: seq<State>, lo: nat, hi: nat, s: State, ok: bool, f: nat)
    requires WorkerEnabled(s) && !s.worker.phase.Load? && !s.worker.phase.Answer? && FlushSampled(run, lo, hi, s, f)
    ensures FlushSampled(run, lo, hi, Work(c, s, ok), f)
  {
    OtherWork(c, s, ok);
  }

  /** A step that neither reads a figure nor answers. */
  ghost predicate Silent(s: State, t: State) {
    && t.io.responses == s.io.responses && t.flushers == s.flushers
    && !t.worker.phase.Answer? && (t.worker.phase.Load? ==> t.worker.phase.loaded == 0)
  }

  lemma OtherWork(c: Config, s: State, ok: bool)
    requires WorkerEnabled(s) && !s.worker.phase.Load? && !s.worker.phase.Answer?
    ensures Silent(s, Work(c, s, ok))
  {
    if Collecting(s.worker.phase) { CollectIsSilent(c, s, ok); } else { EndIsSilent(c, s, ok); }
  }

  lemma CollectIsSilent(c: Config, s: State, ok: bool)
    requires Collecting(s.worker.phase)
    ensures Silent(s, Work(c, s, ok))
  {
  }

  lemma EndIsSilent(c: Config, s: State, ok: bool)
    requires s.worker.phase.Check? || (Finishing(s.worker.phase) && !s.worker.phase.Exited?)
    ensures Silent(s, Work(c, s, ok))
  {
  }

  lemma FlushReadsStep(c: Config, run: seq<State>, lo: nat, hi: nat, step: Step, f: nat)
    requires lo <= hi < |run| - 1 && Enabled(run[hi], step) && run[hi + 1] == Apply(c, run[hi], step)
    requires FlushSampled(run, lo, hi, run[hi], f)
    ensures FlushSampled(run, lo, hi + 1, run[hi + 1], f)
  {
    var s := run[hi];
    if step.WorkerStep? {
      WorkSampled(c, run, lo, hi, step.succeeds, f);
    } else {
      FlushSampledLater(run, lo, hi, s, f);
      if step == FlushStep(f) {
        OwnStepSampled(c, run, lo, hi + 1, s, f);
      } else {
        OthersKeepPath(c, s, step, f);
        SamePathSampled(run, lo, hi + 1, s, Apply(c, s, step), f);
      }
    }
  }

  /** No command of a flush that has not sent one is on its way. */
  lemma NothingSentYet(c: Config, run: seq<State>, lo: nat, f: nat)
    requires lo < |run| && Inv(c, run[lo]) && f in run[lo].flushers && run[lo].flushers[f].FlushTarget?
    ensures FlushSampled(run, lo, lo, run[lo], f)
  {
  }

  lemma {:induction false} FlushReads(c: Config, run: seq<State>, steps: seq<Step>, lo: nat, hi: nat, f: nat)
    requires ValidConfig(c) && IsRun(c, run, steps) && lo <= hi < |run|
    requires f in run[lo].flushers && run[lo].flushers[f].FlushTarget?
    ensures FlushSampled(run, lo, hi, run[hi], f)
    decreases hi
  {
    if lo == hi {
      RunInv(c, run, steps, lo);
      NothingSentYet(c, run, lo, f);
    } else {
      var h := hi - 1;
      FlushReads(c, run, steps, lo, h, f);
      FlushReadsStep(c, run, lo, h, steps[h], f);
    }
  }

  /** What a `flush` that answers Ok reports: each figure as it stood in some state after its target was
      read; so the batches exported and failed by then, each by itself. */
  lemma FlushReports(c: Config, run: seq<State>, steps: seq<Step>, i: nat, j: nat, f: nat)
    requires ValidConfig(c) && IsRun(c, run, steps) && i <= j < |run|
    requires f in run[i].flushers && run[i].flushers[f].FlushTarget?
    requires f in run[j].flushers && run[j].flushers[f].FlushOk?
    ensures var answer := run[j].flushers[f].stats;
            && (exists m :: i <= m <= j && answer.accepted == run[m].stats.accepted)
            && (exists m :: i <= m <= j && answer.dropped == run[m].stats.dropped)
            && (exists m :: i <= m <= j && answer.exported == Total(c, run, steps, m, Exported))
            && (exists m :: i <= m <= j && answer.failed == Total(c, run, steps, m, Failed))
            && (exists m :: i <= m <= j && answer.rejected == run[m].stats.rejected)
  {
    FlushReads(c, run, steps, i, j, f);
    var answer := run[j].flushers[f].stats;
    forall k: nat | k < 5 ensures Stood(run, i, j, Field(answer, k), k) { }
    assert Stood(run, i, j, Field(answer, 0), 0) && Stood(run, i, j, Field(answer, 1), 1);
    assert Stood(run, i, j, Field(answer, 2), 2) && Stood(run, i, j, Field(answer, 3), 3);
    assert Stood(run, i, j, Field(answer, 4), 4);
    var m :| i <= m <= j && m < |run| && answer.exported == Field(run[m].stats, 2);
    var n :| i <= n <= j && n < |run| && answer.failed == Field(run[n].stats, 3);
    FiguresAreExact(c, run, steps, m);
    FiguresAreExact(c, run, steps, n);
  }

  // -- how calls fail, and that they can succeed ---------------------------

  /** A step makes a flush fail exactly when it times out, finds the gate not open, or finds the control
      queue full or the worker gone. */
  lemma FlushFailsExactlyWhen(c: Config, s: State, step: Step, f: nat)
    requires Enabled(s, step) && !(f in s.flushers && s.flushers[f].FlushErr?)
    ensures var t := Apply(c, s, step);
            f in t.flushers && t.flushers[f].FlushErr? <==>
              && f in s.flushers
              && (|| step == FlushTimeout(f)
                  || (step == FlushStep(f) && s.flushers[f].FlushStarted? && s.front.gate != Open)
                  || (step == FlushStep(f) && s.flushers[f].FlushTarget?
                      && (|s.io.flushes| >= c.controlCapacity || s.worker.phase.Exited?)))
  {
    match step
    case EnqueueStep(call) => EnqueueHasEffect(c, s, call);
    case CloseStep(id) => CloseFrames(s, id);
    case WorkerStep(ok) => WorkKept(c, s, ok);
    case _ =>
  }

  /** The exporter's own `shutdown` failed. */
  ghost predicate FinishFailed(run: seq<State>, steps: seq<Step>, n: nat)
    requires n <= |steps| && |run| == |steps| + 1
  {
    exists m :: 0 <= m < n && run[m].worker.phase.Finish? && steps[m] == WorkerStep(false)
  }

  predicate Finished(x: WorkerPhase) { x.StoreError? || x.StoreClosed? || x.Exited? }

  /** Once the worker has finished, it and the error flag tell how. */
  ghost predicate ErrorKnown(s: State, failed: bool) {
    && (!Finished(s.worker.phase) ==> !failed)
    && (Finished(s.worker.phase) ==> s.worker.shutdownFailed == failed)
    && (s.worker.phase.StoreClosed? || s.worker.phase.Exited? ==> s.front.error == failed)
  }

  lemma WorkErrorKnown(c: Config, s: State, ok: bool, failed: bool)
    requires WorkerEnabled(s) && ErrorKnown(s, failed)
    ensures ErrorKnown(Work(c, s, ok), failed || (s.worker.phase.Finish? && !ok))
  {
  }

  lemma CloseErrorKnown(c: Config, s: State, id: nat, failed: bool)
    requires Inv(c, s) && CloseEnabled(s, id) && ErrorKnown(s, failed)
    ensures ErrorKnown(Close(s, id), failed)
  {
    CloseFrames(s, id);
    if id in s.closers { assert CloserFits(s, id, s.closers[id]); }
  }

  lemma StepErrorKnown(c: Config, s: State, step: Step, failed: bool)
    requires Inv(c, s) && Enabled(s, step) && ErrorKnown(s, failed)
    ensures ErrorKnown(Apply(c, s, step), failed || (step == WorkerStep(false) && s.worker.phase.Finish?))
  {
    match step
    case EnqueueStep(call) => EnqueueHasEffect(c, s, call);
    case FlushStep(id) => FlushFrames(c, s, id);
    case CloseStep(id) => CloseErrorKnown(c, s, id, failed);
    case WorkerStep(ok) => WorkErrorKnown(c, s, ok, failed);
    case _ =>
  }

  lemma FinishFailedNext(run: seq<State>, steps: seq<Step>, n: nat)
    requires n < |steps| && |run| == |steps| + 1
    ensures FinishFailed(run, steps, n + 1) <==>
              FinishFailed(run, steps, n) || (steps[n] == WorkerStep(false) && run[n].worker.phase.Finish?)
  {
  }

  lemma {:induction false} RunErrorKnown(c: Config, run: seq<State>, steps: seq<Step>, j: nat)
    requires ValidConfig(c) && IsRun(c, run, steps) && j < |run|
    ensures ErrorKnown(run[j], FinishFailed(run, steps, j))
  {
    if j > 0 {
      var i := j - 1;
      RunErrorKnown(c, run, steps, i);
      FinishFailedNext(run, steps, i);
      ErrorKnownNext(c, run, steps, i, FinishFailed(run, steps, i));
    }
  }

  lemma ErrorKnownNext(c: Config, run: seq<State>, steps: seq<Step>, i: nat, failed: bool)
    requires ValidConfig(c) && IsRun(c, run, steps) && i < |steps| && ErrorKnown(run[i], failed)
    ensures ErrorKnown(run[i + 1], failed || (steps[i] == WorkerStep(false) && run[i].worker.phase.Finish?))
  {
    RunInv(c, run, steps, i);
    StepErrorKnown(c, run[i], steps[i], failed);
  }

  /** A waiting shutdown caller that goes on gets an error exactly when the exporter's `shutdown` failed. */
  lemma ShutdownFailsExactlyWhen(c: Config, run: seq<State>, steps: seq<Step>, i: nat, k: nat)
    requires ValidConfig(c) && IsRun(c, run, steps) && i < |steps| && steps[i] == CloseStep(k)
    requires k in run[i].closers && run[i].closers[k].CloseJoining?
    ensures k in run[i + 1].closers
    ensures run[i + 1].closers[k].CloseErr? <==> FinishFailed(run, steps, i)
  {
    RunErrorKnown(c, run, steps, i);
    assert run[i + 1] == Apply(c, run[i], steps[i]);
  }

  /** A flush that was sent, from the start. */
  lemma FlushCanBeSent(c: Config) returns (run: seq<State>, steps: seq<Step>)
    requires ValidConfig(c)
    ensures IsRun(c, run, steps)
    ensures var s := run[|run| - 1]; 0 in s.flushers && s.flushers[0].FlushSent? && !HasTarget(s)
  {
    run, steps := [INIT], [];
    run, steps := Extend(c, run, steps, FlushStep(0));
    assert run[|run| - 1] == MoveFlusher(INIT, 0, FlushStarted(0));
    run, steps := Extend(c, run, steps, FlushStep(0));
    assert run[|run| - 1].flushers == map[0 := FlushWaiting(0)];
    run, steps := Extend(c, run, steps, FlushStep(0));
    run, steps := Extend(c, run, steps, FlushStep(0));
    run, steps := Extend(c, run, steps, FlushStep(0));
  }

  /** With any exporter, some run answers a flush. */
  lemma FlushCanSucceed(c: Config, outcomes: nat -> bool) returns (run: seq<State>, steps: seq<Step>)
    requires ValidConfig(c)
    ensures IsRun(c, run, steps)
    ensures var s := run[|run| - 1]; 0 in s.flushers && s.flushers[0].FlushOk?
  {
    run, steps := FlushCanBeSent(c);
    var s := run[|run| - 1];
    var n := FlushIsAnswered(c, run, steps, |run| - 1, 0, outcomes);
    AloneKeepsFlushers(c, s, outcomes, 0, n);
    run, steps := AloneIsRun(c, run, steps, outcomes, 0, n);
    run, steps := Extend(c, run, steps, FlushStep(0));
  }

  lemma {:induction false} AloneKeepsFlushers(c: Config, s: State, outcomes: nat -> bool, i: nat, n: nat)
    ensures Alone(c, s, outcomes, i, n).flushers == s.flushers
    decreases n
  {
    if n > 0 && !s.worker.phase.Exited? {
      WorkKept(c, s, outcomes(i));
      AloneKeepsFlushers(c, Work(c, s, outcomes(i)), outcomes, i + 1, n - 1);
    }
  }

  /** The elected shutdown caller waits, from the start. */
  lemma ShutdownCanWait(c: Config) returns (run: seq<State>, steps: seq<Step>)
    requires ValidConfig(c)
    ensures IsRun(c, run, steps)
    ensures var s := run[|run| - 1];
            0 in s.closers && s.closers[0].CloseJoining? && s.log.elected == Some(0) && !Finished(s.worker.phase)
  {
    run, steps := [INIT], [];
    run, steps := Extend(c, run, steps, CloseStep(0));
    assert run[|run| - 1] == MoveCloser(INIT, 0, CloseStarted);
    run, steps := Extend(c, run, steps, CloseStep(0));
    assert run[|run| - 1].closers == map[0 := CloseWaiting];
    run, steps := Extend(c, run, steps, CloseStep(0));
    assert run[|run| - 1].closers == map[0 := CloseBarrier];
    run, steps := Extend(c, run, steps, CloseStep(0));
    assert run[|run| - 1].closers == map[0 := CloseElected];
    run, steps := Extend(c, run, steps, CloseStep(0));
    assert run[|run| - 1].closers == map[0 := CloseTarget(0)];
    run, steps := Extend(c, run, steps, CloseStep(0));
  }

  lemma {:induction false} AloneWithoutError(c: Config, s: State, outcomes: nat -> bool, i: nat, n: nat)
    requires ErrorKnown(s, false) && forall k: nat :: outcomes(k)
    ensures ErrorKnown(Alone(c, s, outcomes, i, n), false)
    decreases n
  {
    if n > 0 && !s.worker.phase.Exited? {
      WorkErrorKnown(c, s, outcomes(i), false);
      AloneWithoutError(c, Work(c, s, outcomes(i)), outcomes, i + 1, n - 1);
    }
  }

  lemma CloserLoads(c: Config, run: seq<State>, steps: seq<Step>, n: nat) returns (r: seq<State>, t: seq<Step>)
    requires IsRun(c, run, steps) && n <= 4
    requires 0 in run[|run| - 1].closers && run[|run| - 1].closers[0].CloseStats?
    requires run[|run| - 1].closers[0].loaded == n
    ensures IsRun(c, r, t) && 0 in r[|r| - 1].closers && r[|r| - 1].closers[0].CloseOk?
    decreases 4 - n
  {
    r, t := Extend(c, run, steps, CloseStep(0));
    if n < 4 { r, t := CloserLoads(c, r, t, n + 1); }
  }

  /** With an exporter that does not fail, some run answers a shutdown. */
  lemma ShutdownCanSucceed(c: Config) returns (run: seq<State>, steps: seq<Step>)
    requires ValidConfig(c)
    ensures IsRun(c, run, steps)
    ensures var s := run[|run| - 1]; 0 in s.closers && s.closers[0].CloseOk?
  {
    var outcomes: nat -> bool := _ => true;
    run, steps := ShutdownCanWait(c);
    var s := run[|run| - 1];
    var n := ShutdownIsServed(c, run, steps, |run| - 1, 0, outcomes);
    AloneWithoutError(c, s, outcomes, 0, n);
    AloneKeepsClosers(c, s, outcomes, 0, n);
    run, steps := AloneIsRun(c, run, steps, outcomes, 0, n);
    run, steps := Extend(c, run, steps, CloseStep(0));
    run, steps := CloserLoads(c, run, steps, 0);
  }
}
