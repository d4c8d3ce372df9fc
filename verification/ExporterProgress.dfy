/**
 What the exporter's worker achieves alone: from every reachable state, whatever
 the exporter answers, it answers the flushes it was sent and leaves on the
 shutdown target it was handed.
 */
module ExporterProgress {

  import opened Wrappers
  import opened Exporter
  import opened ExporterInvariant
  import opened ExporterTheorems

  /** `n` steps of the worker alone, or fewer if it exits; `outcomes` are those of its exporter calls. */
  function Alone(c: Config, s: State, outcomes: nat -> bool, i: nat, n: nat): State
    decreases n
  {
    if n == 0 || s.worker.phase.Exited? then s
    else Alone(c, Work(c, s, outcomes(i)), outcomes, i + 1, n - 1)
  }

  // -- where a sent flush is, and how far its target can be ---------------

  predicate Queued(flushes: seq<FlushCommand>, f: nat) {
    exists k :: 0 <= k < |flushes| && flushes[k].id == f
  }

  predicate PendingFor(w: Worker, f: nat) { w.pendingFlush.Some? && w.pendingFlush.value.id == f }

  /** The flush is answered, in the worker's hands, or in the channel. */
  predicate Waits(s: State, f: nat) {
    f in s.io.responses || PendingFor(s.worker, f) || Queued(s.io.flushes, f)
  }

  ghost predicate Tracked(s: State) {
    forall f | f in s.flushers && s.flushers[f].FlushSent? :: Waits(s, f)
  }

  predicate Aims(x: Flusher, n: nat) {
    (x.FlushTarget? ==> x.target <= n) && (x.FlushSent? ==> x.target <= n)
  }

  /** No flush aims beyond the events sent. */
  ghost predicate Bounded(s: State) {
    && (forall f | f in s.flushers :: Aims(s.flushers[f], |s.log.sent|))
    && (forall cmd | cmd in s.io.flushes :: cmd.target <= |s.log.sent|)
    && (s.worker.pendingFlush.Some? ==> s.worker.pendingFlush.value.target <= |s.log.sent|)
  }

  predicate PastElection(x: Closer) { !x.CloseStarted? && !x.CloseWaiting? && !x.CloseBarrier? }

  /** The elected shutdown caller, once it waits, has handed its target to the worker. */
  predicate Handed(s: State) {
    s.log.elected.Some? ==>
      var k := s.log.elected.value;
      k in s.closers && PastElection(s.closers[k]) && (s.closers[k].CloseJoining? ==> HasTarget(s))
  }

  predicate HasTarget(s: State) {
    s.io.shutdowns != [] || s.worker.pendingShutdown.Some? || Finishing(s.worker.phase)
  }

  ghost predicate Kept(s: State) { Tracked(s) && Bounded(s) && Handed(s) }

  // -- every step keeps this ----------------------------------------------

  /** Nothing of the flush protocol changes but the events sent. */
  predicate SameFlushState(s: State, t: State) {
    && t.flushers == s.flushers && SameFlushes(s, t) && |s.log.sent| <= |t.log.sent|
  }

  lemma SameFlushKept(s: State, t: State)
    requires Tracked(s) && Bounded(s) && SameFlushState(s, t)
    ensures Tracked(t) && Bounded(t)
  {
    forall f | f in t.flushers ensures Aims(t.flushers[f], |t.log.sent|) { assert Aims(s.flushers[f], |s.log.sent|); }
    forall f | f in t.flushers && t.flushers[f].FlushSent? ensures Waits(t, f) { assert Waits(s, f); }
  }

  lemma SameHanded(s: State, t: State)
    requires Handed(s) && t.closers == s.closers && t.log.elected == s.log.elected
    requires HasTarget(s) ==> HasTarget(t)
    ensures Handed(t)
  {
  }

  lemma EnqueueKept(c: Config, s: State, call: nat)
    requires Kept(s) && EnqueueEnabled(s, call)
    ensures Kept(Enqueue(c, s, call))
  {
    EnqueueHasEffect(c, s, call);
    SameFlushKept(s, Enqueue(c, s, call));
    SameHanded(s, Enqueue(c, s, call));
  }

  lemma MoveFlusherKept(s: State, id: nat, x: Flusher)
    requires Tracked(s) && Bounded(s) && Aims(x, |s.log.sent|) && (x.FlushSent? ==> Waits(s, id))
    ensures var t := MoveFlusher(s, id, x); Tracked(t) && Bounded(t)
  {
    var t := MoveFlusher(s, id, x);
    forall f | f in t.flushers && t.flushers[f].FlushSent? ensures Waits(t, f) { assert Waits(s, f); }
    forall f | f in t.flushers ensures Aims(t.flushers[f], |t.log.sent|) {
      if f != id { assert Aims(s.flushers[f], |s.log.sent|); }
    }
  }

  lemma QueuedMore(flushes: seq<FlushCommand>, cmd: FlushCommand, f: nat)
    ensures Queued(flushes, f) ==> Queued(flushes + [cmd], f)
    ensures Queued(flushes + [cmd], cmd.id)
  {
    if Queued(flushes, f) {
      var k :| 0 <= k < |flushes| && flushes[k].id == f;
      assert (flushes + [cmd])[k].id == f;
    }
    assert (flushes + [cmd])[|flushes|].id == cmd.id;
  }

  /** Adding a command that aims no further than the events sent. */
  lemma CommandKept(s: State, cmd: FlushCommand)
    requires Tracked(s) && Bounded(s) && cmd.target <= |s.log.sent|
    ensures var t := s.(io := s.io.(flushes := s.io.flushes + [cmd]));
            Tracked(t) && Bounded(t) && Waits(t, cmd.id)
  {
    var t := s.(io := s.io.(flushes := s.io.flushes + [cmd]));
    QueuedMore(s.io.flushes, cmd, cmd.id);
    forall f | f in t.flushers && t.flushers[f].FlushSent? ensures Waits(t, f) {
      assert Waits(s, f);
      QueuedMore(s.io.flushes, cmd, f);
    }
  }

  lemma SendFlushKept(c: Config, s: State, id: nat, b: nat, target: nat)
    requires Tracked(s) && Bounded(s) && target <= |s.log.sent|
    ensures var t := SendFlush(c, s, id, b, target); Tracked(t) && Bounded(t)
  {
    if |s.io.flushes| < c.controlCapacity && !s.worker.phase.Exited? {
      var cmd := FlushCommand(id, target);
      CommandKept(s, cmd);
      MoveFlusherKept(s.(io := s.io.(flushes := s.io.flushes + [cmd])), id, FlushSent(b, target));
    } else {
      MoveFlusherKept(s, id, FlushErr(b));
    }
  }

  lemma FlushKept(c: Config, s: State, id: nat)
    requires Accounting(s) && Kept(s) && FlushEnabled(s, id)
    ensures Kept(Flush(c, s, id))
  {
    FlushFrames(c, s, id);
    SameHanded(s, Flush(c, s, id));
    if id !in s.flushers {
      MoveFlusherKept(s, id, FlushStarted(|s.log.sent|));
    } else {
      assert Aims(s.flushers[id], |s.log.sent|);
      match s.flushers[id]
      case FlushStarted(b) => MoveFlusherKept(s, id, if s.front.gate == Open then FlushWaiting(b) else FlushErr(b));
      case FlushWaiting(b) => MoveFlusherKept(s, id, FlushBarrier(b));
      case FlushBarrier(b) => MoveFlusherKept(s, id, FlushTarget(b, s.stats.accepted));
      case FlushTarget(b, target) => SendFlushKept(c, s, id, b, target);
      case FlushSent(b, _) => MoveFlusherKept(s, id, FlushOk(b, s.io.responses[id]));
    }
  }

  lemma CloseHanded(c: Config, s: State, id: nat)
    requires Inv(c, s) && Handed(s) && CloseEnabled(s, id)
    ensures Handed(Close(s, id))
  {
    if id in s.closers { assert CloserFits(s, id, s.closers[id]); }
  }

  lemma CloseKept(c: Config, s: State, id: nat)
    requires Inv(c, s) && Kept(s) && CloseEnabled(s, id)
    ensures Kept(Close(s, id))
  {
    CloseFrames(s, id);
    SameFlushKept(s, Close(s, id));
    CloseHanded(c, s, id);
  }

  // -- the worker's own steps ---------------------------------------------

  /** What a step of the worker never takes away. */
  ghost predicate WorkKeeps(s: State, t: State) {
    && t.flushers == s.flushers && t.closers == s.closers && t.log.sent == s.log.sent
    && t.log.elected == s.log.elected && t.front.connected == s.front.connected
    && (HasTarget(s) ==> HasTarget(t))
    && (forall f | Waits(s, f) :: Waits(t, f))
  }

  lemma GotoKeeps(s: State, phase: WorkerPhase)
    requires !Finishing(s.worker.phase)
    ensures WorkKeeps(s, Goto(s, phase)) && SameFlushes(s, Goto(s, phase))
  {
    var t := Goto(s, phase);
    forall f | Waits(s, f) ensures Waits(t, f) { }
  }

  lemma SameFlushesKeeps(s: State, t: State)
    requires SameFlushes(s, t)
    ensures forall f | Waits(s, f) :: Waits(t, f)
  {
    forall f | Waits(s, f) ensures Waits(t, f) { }
  }

  lemma TakeFlushKeeps(s: State)
    requires s.io.flushes != [] && s.worker.pendingFlush.None? && !Finishing(s.worker.phase)
    ensures WorkKeeps(s, TakeFlush(s))
    ensures Bounded(s) ==> Bounded(TakeFlush(s))
  {
    var t := TakeFlush(s);
    forall f | Waits(s, f) ensures Waits(t, f) {
      if Queued(s.io.flushes, f) {
        var k :| 0 <= k < |s.io.flushes| && s.io.flushes[k].id == f;
        if k > 0 { assert t.io.flushes[k - 1].id == f; }
      }
    }
  }

  lemma SendAnswerKeeps(s: State)
    requires s.worker.pendingFlush.Some? && !Finishing(s.worker.phase)
    ensures WorkKeeps(s, SendAnswer(s, s.worker.pendingFlush.value.id))
  {
    var t := SendAnswer(s, s.worker.pendingFlush.value.id);
    forall f | Waits(s, f) ensures Waits(t, f) { }
  }

  lemma TakeEventKeeps(s: State, phase: WorkerPhase)
    requires s.io.events != [] && !Finishing(s.worker.phase)
    ensures WorkKeeps(s, TakeEvent(s, phase)) && SameFlushes(s, TakeEvent(s, phase))
  {
    SameFlushesKeeps(s, TakeEvent(s, phase));
  }

  lemma CollectKeeps(c: Config, s: State, ok: bool)
    requires Collecting(s.worker.phase)
    ensures WorkKeeps(s, Work(c, s, ok)) && (Bounded(s) ==> Bounded(Work(c, s, ok)))
  {
    match s.worker.phase
    case PollShutdown =>
      if s.worker.pendingShutdown.None? && s.io.shutdowns != [] { SameFlushesKeeps(s, TakeShutdown(s)); }
      else { GotoKeeps(s, PollFlush); }
    case PollFlush =>
      if s.worker.pendingFlush.None? && s.worker.pendingShutdown.None? && s.io.flushes != [] { TakeFlushKeeps(s); }
      else { GotoKeeps(s, Receive); }
    case Receive =>
      if s.io.events != [] { TakeEventKeeps(s, Fill); }
      else { GotoKeeps(s, if s.front.connected then Fill else Finish); }
    case Fill =>
      if |s.worker.batch| < c.maxBatch && s.io.events != [] { TakeEventKeeps(s, Fill); }
      else { GotoKeeps(s, if s.worker.batch == [] then Load(0) else Export); }
    case Export => SameFlushesKeeps(s, DoExport(s, ok));
  }

  lemma ReportKeeps(c: Config, s: State, ok: bool)
    requires WorkerEnabled(s) && !Collecting(s.worker.phase)
    ensures WorkKeeps(s, Work(c, s, ok)) && (Bounded(s) ==> Bounded(Work(c, s, ok)))
  {
    if s.worker.phase.Answer? {
      var pending := s.worker.pendingFlush;
      if pending.Some? && s.worker.processed >= pending.value.target { SendAnswerKeeps(s); }
      else { GotoKeeps(s, Check); }
    } else if s.worker.phase.Load? {
      SameFlushesKeeps(s, DoLoad(s, s.worker.phase.loaded));
    } else if s.worker.phase.Check? {
      GotoKeeps(s, DoCheck(s).worker.phase);
    } else {
      FinishKeeps(c, s, ok);
    }
  }

  lemma FinishKeeps(c: Config, s: State, ok: bool)
    requires WorkerEnabled(s) && Finishing(s.worker.phase)
    ensures WorkKeeps(s, Work(c, s, ok)) && (Bounded(s) ==> Bounded(Work(c, s, ok)))
  {
    SameFlushesKeeps(s, Work(c, s, ok));
  }

  lemma WorkKept(c: Config, s: State, ok: bool)
    requires WorkerEnabled(s)
    ensures WorkKeeps(s, Work(c, s, ok))
    ensures Kept(s) ==> Kept(Work(c, s, ok))
  {
    if Collecting(s.worker.phase) { CollectKeeps(c, s, ok); } else { ReportKeeps(c, s, ok); }
    if Kept(s) { SameHanded(s, Work(c, s, ok)); }
  }

  lemma StepKept(c: Config, s: State, step: Step)
    requires Inv(c, s) && Kept(s) && Enabled(s, step)
    ensures Kept(Apply(c, s, step))
  {
    var t := Apply(c, s, step);
    match step
    case EnqueueStep(call) => EnqueueKept(c, s, call);
    case FlushStep(id) => FlushKept(c, s, id);
    case FlushTimeout(id) =>
      MoveFlusherKept(s, id, FlushErr(s.flushers[id].began));
      SameHanded(s, t);
    case CloseStep(id) => CloseKept(c, s, id);
    case CloseTimeout(id) => SameFlushKept(s, t);
    case WorkerStep(ok) => WorkKept(c, s, ok);
    case DropHandles =>
      SameFlushKept(s, t);
      SameHanded(s, t);
  }

  lemma {:induction false} RunKept(c: Config, run: seq<State>, steps: seq<Step>, i: nat)
    requires ValidConfig(c) && IsRun(c, run, steps) && i < |run|
    ensures Kept(run[i])
  {
    if i > 0 {
      RunKept(c, run, steps, i - 1);
      RunInv(c, run, steps, i - 1);
      StepKept(c, run[i - 1], steps[i - 1]);
      assert run[i] == Apply(c, run[i - 1], steps[i - 1]);
    }
  }

  // -- the worker leaves ---------------------------------------------------

  /** The worker's way round its loop, from `Fill` to `Receive`. */
  function Rank(x: WorkerPhase): nat {
    match x
    case Fill => 12
    case Export => 11
    case Load(k) => if k <= 4 then 10 - k else 6
    case Answer => 5
    case Check => 4
    case PollShutdown => 3
    case PollFlush => 2
    case Receive => 1
    case _ => 0
  }

  function Closing(x: WorkerPhase): nat {
    match x
    case Finish => 3
    case StoreError => 2
    case StoreClosed => 1
    case _ => 0
  }

  lemma {:induction false} FinishComes(c: Config, s: State, outcomes: nat -> bool, i: nat) returns (n: nat)
    requires Finishing(s.worker.phase)
    ensures Alone(c, s, outcomes, i, n).worker.phase.Exited?
    decreases Closing(s.worker.phase)
  {
    n := 0;
    if !s.worker.phase.Exited? {
      n := FinishComes(c, Work(c, s, outcomes(i)), outcomes, i + 1);
      n := n + 1;
    }
  }

  /** The shutdown channel was polled before the target came. */
  function Missed(s: State): nat {
    One((s.worker.phase.PollFlush? || s.worker.phase.Receive?) && s.worker.pendingShutdown.None?)
  }

  /** The coming check does not have to see the shutdown target reached. */
  function Unreached(s: State): nat {
    var w := s.worker;
    One(!((w.phase.Fill? || w.phase.Export? || w.phase.Load? || w.phase.Answer? || w.phase.Check?)
          && w.pendingShutdown.Some? && w.processed + |w.batch| >= w.pendingShutdown.value))
  }

  predicate LeavesSooner(s: State, t: State) {
    || Missed(t) < Missed(s)
    || (Missed(t) == Missed(s) && |t.io.events| < |s.io.events|)
    || (Missed(t) == Missed(s) && |t.io.events| == |s.io.events| && Unreached(t) < Unreached(s))
    || (Missed(t) == Missed(s) && |t.io.events| == |s.io.events| && Unreached(t) == Unreached(s)
        && Rank(t.worker.phase) < Rank(s.worker.phase))
  }

  predicate HoldsTarget(s: State) {
    !Finishing(s.worker.phase) && (s.io.shutdowns != [] || s.worker.pendingShutdown.Some?)
  }

  /** With nothing queued and nothing in hand, everything sent is processed. */
  lemma AllProcessed(c: Config, s: State)
    requires Delivery(c, s) && s.io.events == [] && s.worker.batch == []
    ensures s.worker.processed == |s.log.sent|
  {
  }

  lemma PollLeaves(s: State)
    requires HoldsTarget(s)
    ensures s.worker.phase.PollShutdown? ==> HoldsTarget(DoPollShutdown(s)) && LeavesSooner(s, DoPollShutdown(s))
    ensures s.worker.phase.PollFlush? ==> HoldsTarget(DoPollFlush(s)) && LeavesSooner(s, DoPollFlush(s))
  {
  }

  lemma ReceiveLeaves(c: Config, s: State)
    requires Delivery(c, s) && Closure(s) && HoldsTarget(s) && s.worker.phase.Receive?
    ensures var t := DoReceive(s); Finishing(t.worker.phase) || (HoldsTarget(t) && LeavesSooner(s, t))
  {
    if s.io.events == [] { AllProcessed(c, s); }
  }

  lemma FillLeaves(c: Config, s: State)
    requires HoldsTarget(s) && s.worker.phase.Fill?
    ensures var t := DoFill(c, s); HoldsTarget(t) && LeavesSooner(s, t)
  {
  }

  lemma ExportLeaves(s: State, ok: bool)
    requires HoldsTarget(s) && s.worker.phase.Export?
    ensures var t := DoExport(s, ok); HoldsTarget(t) && LeavesSooner(s, t)
  {
  }

  lemma LoadLeaves(s: State)
    requires HoldsTarget(s) && s.worker.phase.Load? && s.worker.phase.loaded <= 4
    ensures var t := DoLoad(s, s.worker.phase.loaded); HoldsTarget(t) && LeavesSooner(s, t)
  {
  }

  lemma AnswerLeaves(s: State)
    requires HoldsTarget(s) && s.worker.phase.Answer?
    ensures HoldsTarget(DoAnswer(s)) && LeavesSooner(s, DoAnswer(s))
  {
  }

  lemma CheckLeaves(s: State)
    requires HoldsTarget(s) && s.worker.phase.Check? && s.worker.batch == []
    ensures var t := DoCheck(s); Finishing(t.worker.phase) || (HoldsTarget(t) && LeavesSooner(s, t))
  {
  }

  lemma WorkLeaves(c: Config, s: State, ok: bool)
    requires Delivery(c, s) && Closure(s) && HoldsTarget(s)
    ensures var t := Work(c, s, ok); Finishing(t.worker.phase) || (HoldsTarget(t) && LeavesSooner(s, t))
  {
    match s.worker.phase
    case PollShutdown => PollLeaves(s);
    case PollFlush => PollLeaves(s);
    case Receive => ReceiveLeaves(c, s);
    case Fill => FillLeaves(c, s);
    case Export => ExportLeaves(s, ok);
    case Load(_) => LoadLeaves(s);
    case Answer => AnswerLeaves(s);
    case Check => CheckLeaves(s);
  }

  /** A worker that holds or will find a shutdown target exits. */
  lemma {:induction false} ExitComes(c: Config, s: State, outcomes: nat -> bool, i: nat) returns (n: nat)
    requires ValidConfig(c) && Inv(c, s) && (HoldsTarget(s) || Finishing(s.worker.phase))
    ensures Alone(c, s, outcomes, i, n).worker.phase.Exited?
    decreases One(!Finishing(s.worker.phase)), Missed(s), |s.io.events|, Unreached(s), Rank(s.worker.phase)
  {
    if Finishing(s.worker.phase) {
      n := FinishComes(c, s, outcomes, i);
    } else {
      var t := Work(c, s, outcomes(i));
      WorkInv(c, s, outcomes(i));
      WorkLeaves(c, s, outcomes(i));
      n := ExitComes(c, t, outcomes, i + 1);
      n := n + 1;
    }
  }

  // -- the worker answers ---------------------------------------------------

  /** The flush channel was polled before a command came. */
  function Unpolled(s: State): nat { One(s.worker.phase.Receive? && s.worker.pendingFlush.None?) }

  function Commands(s: State): nat { |s.io.flushes| + One(s.worker.pendingFlush.Some?) }

  /** The coming answer does not have to see the flush target reached. */
  function Unmet(s: State): nat {
    var w := s.worker;
    One(!((w.phase.Fill? || w.phase.Export? || w.phase.Load? || w.phase.Answer?)
          && w.pendingFlush.Some? && w.processed + |w.batch| >= w.pendingFlush.value.target))
  }

  predicate AnswersSooner(s: State, t: State) {
    || Unpolled(t) < Unpolled(s)
    || (Unpolled(t) == Unpolled(s) && Commands(t) < Commands(s))
    || (Unpolled(t) == Unpolled(s) && Commands(t) == Commands(s) && |t.io.events| < |s.io.events|)
    || (Unpolled(t) == Unpolled(s) && Commands(t) == Commands(s) && |t.io.events| == |s.io.events|
        && (Unmet(t) < Unmet(s) || (Unmet(t) == Unmet(s) && Rank(t.worker.phase) < Rank(s.worker.phase))))
  }

  /** In its loop, with no shutdown in sight and some handle alive. */
  predicate Serving(s: State) {
    !Finishing(s.worker.phase) && s.io.shutdowns == [] && s.worker.pendingShutdown.None? && s.front.connected
  }

  lemma PollAnswers(s: State)
    requires Serving(s) && Commands(s) > 0
    ensures s.worker.phase.PollShutdown? ==> Serving(DoPollShutdown(s)) && AnswersSooner(s, DoPollShutdown(s))
    ensures s.worker.phase.PollFlush? ==> Serving(DoPollFlush(s)) && AnswersSooner(s, DoPollFlush(s))
  {
  }

  lemma ReceiveAnswers(c: Config, s: State)
    requires Delivery(c, s) && Bounded(s) && Serving(s) && s.worker.phase.Receive?
    ensures Serving(DoReceive(s)) && AnswersSooner(s, DoReceive(s))
  {
    if s.io.events == [] { AllProcessed(c, s); }
  }

  lemma FillAnswers(c: Config, s: State)
    requires Serving(s) && s.worker.phase.Fill?
    ensures Serving(DoFill(c, s)) && AnswersSooner(s, DoFill(c, s))
  {
  }

  lemma ExportAnswers(s: State, ok: bool)
    requires Serving(s) && s.worker.phase.Export?
    ensures Serving(DoExport(s, ok)) && AnswersSooner(s, DoExport(s, ok))
  {
  }

  lemma LoadAnswers(s: State)
    requires Serving(s) && s.worker.phase.Load? && s.worker.phase.loaded <= 4
    ensures var t := DoLoad(s, s.worker.phase.loaded); Serving(t) && AnswersSooner(s, t)
  {
  }

  lemma AnswerAnswers(s: State)
    requires Serving(s) && s.worker.phase.Answer? && s.worker.batch == []
    ensures Serving(DoAnswer(s)) && AnswersSooner(s, DoAnswer(s))
  {
  }

  lemma CheckAnswers(s: State)
    requires Serving(s) && s.worker.phase.Check?
    ensures Serving(DoCheck(s)) && AnswersSooner(s, DoCheck(s))
  {
  }

  lemma WorkAnswers(c: Config, s: State, ok: bool)
    requires Delivery(c, s) && Bounded(s) && Serving(s) && Commands(s) > 0
    ensures var t := Work(c, s, ok); Serving(t) && AnswersSooner(s, t)
  {
    match s.worker.phase
    case PollShutdown => PollAnswers(s);
    case PollFlush => PollAnswers(s);
    case Receive => ReceiveAnswers(c, s);
    case Fill => FillAnswers(c, s);
    case Export => ExportAnswers(s, ok);
    case Load(_) => LoadAnswers(s);
    case Answer => AnswerAnswers(s);
    case Check => CheckAnswers(s);
  }

  /** With no shutdown in sight, a flush that was sent is answered. */
  lemma {:induction false} AnswerComes(c: Config, s: State, outcomes: nat -> bool, i: nat, f: nat) returns (n: nat)
    requires ValidConfig(c) && Inv(c, s) && Kept(s) && Serving(s) && Waits(s, f)
    ensures f in Alone(c, s, outcomes, i, n).io.responses
    decreases Unpolled(s), Commands(s), |s.io.events|, Unmet(s), Rank(s.worker.phase)
  {
    n := 0;
    if f !in s.io.responses {
      var t := Work(c, s, outcomes(i));
      WorkInv(c, s, outcomes(i));
      WorkKept(c, s, outcomes(i));
      WorkAnswers(c, s, outcomes(i));
      n := AnswerComes(c, t, outcomes, i + 1, f);
      n := n + 1;
    }
  }

  // -- from every reachable state -------------------------------------------

  /** From every reachable state the worker alone, whatever its exporter does, answers a flush that was
      sent, unless a shutdown target is on its way; then it exits. */
  lemma FlushIsAnswered(c: Config, run: seq<State>, steps: seq<Step>, j: nat, f: nat, outcomes: nat -> bool)
    returns (n: nat)
    requires ValidConfig(c) && IsRun(c, run, steps) && j < |run|
    requires f in run[j].flushers && run[j].flushers[f].FlushSent?
    ensures var t := Alone(c, run[j], outcomes, 0, n);
            if HasTarget(run[j]) then t.worker.phase.Exited? else f in t.io.responses
  {
    RunInv(c, run, steps, j);
    RunKept(c, run, steps, j);
    if HasTarget(run[j]) {
      n := ExitComes(c, run[j], outcomes, 0);
    } else {
      n := AnswerComes(c, run[j], outcomes, 0, f);
    }
  }

  lemma {:induction false} AloneKeepsClosers(c: Config, s: State, outcomes: nat -> bool, i: nat, n: nat)
    ensures Alone(c, s, outcomes, i, n).closers == s.closers
    decreases n
  {
    if n > 0 && !s.worker.phase.Exited? {
      WorkKept(c, s, outcomes(i));
      AloneKeepsClosers(c, Work(c, s, outcomes(i)), outcomes, i + 1, n - 1);
    }
  }

  /** What the worker does alone is a run of the whole system. */
  lemma {:induction false} AloneIsRun(
    c: Config, run: seq<State>, steps: seq<Step>, outcomes: nat -> bool, i: nat, n: nat)
    returns (longer: seq<State>, more: seq<Step>)
    requires IsRun(c, run, steps)
    ensures IsRun(c, longer, more) && longer[|longer| - 1] == Alone(c, run[|run| - 1], outcomes, i, n)
    decreases n
  {
    longer, more := run, steps;
    if n > 0 && !run[|run| - 1].worker.phase.Exited? {
      longer, more := Extend(c, run, steps, WorkerStep(outcomes(i)));
      longer, more := AloneIsRun(c, longer, more, outcomes, i + 1, n - 1);
    }
  }

  lemma Reachable(c: Config, run: seq<State>, steps: seq<Step>, j: nat)
    requires IsRun(c, run, steps) && j < |run|
    ensures IsRun(c, run[..j + 1], steps[..j])
  {
  }

  /** From every reachable state in which the elected shutdown caller waits, the worker alone exits, with
      everything sent processed, and every waiting caller can return. */
  lemma ShutdownIsServed(c: Config, run: seq<State>, steps: seq<Step>, j: nat, k: nat, outcomes: nat -> bool)
    returns (n: nat)
    requires ValidConfig(c) && IsRun(c, run, steps) && j < |run|
    requires k in run[j].closers && run[j].closers[k].CloseJoining? && run[j].log.elected == Some(k)
    ensures var t := Alone(c, run[j], outcomes, 0, n);
            && t.worker.phase.Exited? && t.log.sent == Processed(t)
            && forall m | m in run[j].closers && run[j].closers[m].CloseJoining? :: CloseEnabled(t, m)
  {
    RunInv(c, run, steps, j);
    RunKept(c, run, steps, j);
    n := ExitComes(c, run[j], outcomes, 0);
    AloneKeepsClosers(c, run[j], outcomes, 0, n);
    Reachable(c, run, steps, j);
    var longer, more := AloneIsRun(c, run[..j + 1], steps[..j], outcomes, 0, n);
    ShutdownComplete(c, longer, more, |longer| - 1);
  }
}
