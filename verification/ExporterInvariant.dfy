/**
 The invariant of the exporter and its preservation by every step.
 */
module ExporterInvariant {

  import opened Wrappers
  import opened Exporter

  // -- counting calls by where they stand ---------------------------------

  datatype Tally =
    | CallsInFlight | CallsAccepted | CallsDropped | CallsRejecting | CallsUncounted
    | CallsRefused       // saw the gate not open, not counted yet
    | CallsTurnedAway    // refused or overflowed, not counted as dropped yet

  predicate Tallied(k: Tally, x: Producer) {
    match k
    case CallsInFlight => InFlight(x)
    case CallsAccepted => x.Counted? || x.DoneAccepted?
    case CallsDropped => x.Dropped? || x.DoneDropped?
    case CallsRejecting => x.Rejected?
    case CallsUncounted => x.Uncounted?
    case CallsRefused => x.Refused?
    case CallsTurnedAway => x.Refused? || x.Rejected? || x.Overflowed?
  }

  predicate InFlight(x: Producer) { !x.DoneAccepted? && !x.DoneDropped? }

  predicate HasSent(x: Producer) { x.Uncounted? || x.Counted? || x.DoneAccepted? }

  function Where(m: map<nat, Producer>, k: Tally): set<nat> {
    set p | p in m && Tallied(k, m[p])
  }

  function One(b: bool): nat { if b then 1 else 0 }

  lemma WhereUpdate(m: map<nat, Producer>, p: nat, v: Producer, k: Tally)
    ensures |Where(m[p := v], k)| == |Where(m, k)| - One(p in m && Tallied(k, m[p])) + One(Tallied(k, v))
  {
    var was, now := Where(m, k), Where(m[p := v], k);
    forall q | q != p ensures q in was <==> q in now { }
    assert was - {p} == now - {p};
    SplitOff(was, p);
    SplitOff(now, p);
  }

  lemma SplitOff(a: set<nat>, p: nat)
    ensures |a| == |a - {p}| + One(p in a)
  {
    if p in a { assert a == (a - {p}) + {p}; } else { assert a == a - {p}; }
  }

  // -- the invariant ------------------------------------------------------

  /** Every counter is the number of calls that stand where it counts them. */
  ghost predicate Accounting(s: State) {
    && s.front.inFlight == |Where(s.producers, CallsInFlight)|
    && s.stats.accepted == |Where(s.producers, CallsAccepted)|
    && s.stats.dropped == |Where(s.producers, CallsDropped)|
    && s.stats.rejected <= s.stats.dropped + |Where(s.producers, CallsRejecting)|
    && |s.log.sent| == s.stats.accepted + |Where(s.producers, CallsUncounted)|
  }

  /** The sent events are those of the calls that passed `try_send`, each sent once. */
  ghost predicate Identity(s: State) {
    && (forall e | e in s.log.sent :: e in s.producers && HasSent(s.producers[e]))
    && (forall p | p in s.producers && HasSent(s.producers[p]) :: p in s.log.sent)
    && (forall i, j | 0 <= i < j < |s.log.sent| :: s.log.sent[i] != s.log.sent[j])
  }

  /** Sent events are processed, in the worker's batch or queued, in send order. */
  ghost predicate Delivery(c: Config, s: State) {
    var w := s.worker;
    && s.log.sent == Processed(s) + w.batch + s.io.events
    && s.stats.exported + s.stats.failed == w.processed == |Processed(s)|
    && (forall b | b in s.log.batches :: 0 < |b| <= c.maxBatch)
    && |s.io.events| <= c.queueCapacity
    && |w.batch| <= c.maxBatch
    && (w.phase.Export? ==> w.batch != [])
    && (!w.phase.Fill? && !w.phase.Export? ==> w.batch == [])
    && (w.phase.Load? ==> w.phase.loaded <= 4)
    && (w.phase.Answer? || (w.phase.Load? && w.phase.loaded >= 3) ==> w.snapshot.exported == s.stats.exported)
    && (w.phase.Answer? || (w.phase.Load? && w.phase.loaded >= 4) ==> w.snapshot.failed == s.stats.failed)
  }

  predicate FlushCommitted(x: Flusher) { x.FlushSent? || x.FlushOk? || x.FlushErr? }

  predicate CommandFits(s: State, cmd: FlushCommand) {
    && cmd.id in s.flushers
    && FlushCommitted(s.flushers[cmd.id])
    && (s.flushers[cmd.id].FlushSent? ==> cmd.target == s.flushers[cmd.id].target)
  }

  predicate FlusherFits(s: State, x: Flusher) {
    && x.began <= |s.log.sent|
    && (x.FlushBarrier? ==> x.began <= s.stats.accepted)
    && (x.FlushTarget? ==> x.began <= x.target)
    && (x.FlushSent? ==> x.began <= x.target)
    && (x.FlushOk? ==> x.began <= x.stats.exported + x.stats.failed <= s.worker.processed)
  }

  /** What `flush` relies on: targets cover the events sent before the flush began. */
  ghost predicate Flushing(s: State) {
    && (forall f | f in s.flushers :: FlusherFits(s, s.flushers[f]))
    && (forall cmd | cmd in s.io.flushes :: CommandFits(s, cmd))
    && (s.worker.pendingFlush.Some? ==> CommandFits(s, s.worker.pendingFlush.value))
    && (forall f | f in s.io.responses ::
          && f in s.flushers && FlushCommitted(s.flushers[f])
          && (s.flushers[f].FlushSent? ==>
                s.flushers[f].target <= s.io.responses[f].exported + s.io.responses[f].failed <= s.worker.processed))
  }

  predicate Finishing(x: WorkerPhase) { x.Finish? || x.StoreError? || x.StoreClosed? || x.Exited? }

  /** No call can send: none has passed the gate and not counted its event, and none will pass it. */
  ghost predicate Quiet(s: State) {
    && (s.front.gate != Open || !s.front.connected)
    && forall p | p in s.producers :: !s.producers[p].Admitted? && !s.producers[p].Uncounted?
  }

  predicate CloserDone(x: Closer) { x.CloseOk? || x.CloseErr? }

  predicate PastBarrier(x: Closer) {
    x.CloseBarrier? || x.CloseElected? || x.CloseTarget? || x.CloseJoining? || x.CloseStats? || x.CloseOk?
  }

  ghost predicate CloserFits(s: State, k: nat, x: Closer) {
    && !x.CloseSendFailed?
    && (!x.CloseStarted? ==> s.front.gate != Open)
    && (PastBarrier(x) ==> s.log.sealed)
    && (x.CloseElected? || x.CloseTarget? ==>
          && s.log.elected == Some(k) && s.io.shutdowns == []
          && s.worker.pendingShutdown.None? && !Finishing(s.worker.phase))
    && (x.CloseTarget? ==> x.target == |s.log.sent|)
    && (x.CloseStats? ==> s.worker.phase.Exited? && StatsFit(s, x.loaded, x.stats))
    && (x.CloseOk? ==> s.worker.phase.Exited? && StatsFit(s, 5, x.stats))
  }

  predicate StatsFit(s: State, k: nat, st: Stats) {
    && k <= 5
    && (k >= 1 ==> st.accepted == |s.log.sent|)
    && (k >= 3 ==> st.exported == s.stats.exported)
    && (k >= 4 ==> st.failed == s.stats.failed)
  }

  /** What `shutdown` relies on. */
  ghost predicate Closure(s: State) {
    var w := s.worker;
    && (forall k | k in s.closers :: CloserFits(s, k, s.closers[k]))
    && (s.front.admitted <==> s.log.elected.Some?)
    && (s.log.sealed ==> Quiet(s) && s.front.gate != Open)
    && |s.io.shutdowns| <= 1
    && (s.io.shutdowns != [] ==>
          && s.front.admitted && s.log.sealed && s.io.shutdowns[0] == |s.log.sent|
          && w.pendingShutdown.None? && (s.front.connected ==> !Finishing(w.phase)))
    && (w.pendingShutdown.Some? ==> s.front.admitted && s.log.sealed && w.pendingShutdown.value == |s.log.sent|)
    && (Finishing(w.phase) ==>
          && Quiet(s) && s.io.events == [] && w.batch == []
          && w.processed == |s.log.sent| == s.stats.accepted
          && (s.front.connected ==> w.pendingShutdown.Some?))
    && s.log.exporterShutdowns == One(w.phase.StoreError? || w.phase.StoreClosed? || w.phase.Exited?)
    && (s.front.gate == Closed <==> w.phase.Exited?)
    && (!s.front.connected ==>
          && (forall p | p in s.producers :: !InFlight(s.producers[p]))
          && (forall f | f in s.flushers :: s.flushers[f].FlushOk? || s.flushers[f].FlushErr?)
          && (forall k | k in s.closers :: CloserDone(s.closers[k])))
  }

  ghost predicate Inv(c: Config, s: State) {
    Accounting(s) && Identity(s) && Delivery(c, s) && Flushing(s) && Closure(s)
  }

  // -- consequences used in the proofs ------------------------------------

  lemma NoneInFlight(s: State)
    requires Accounting(s) && s.front.inFlight == 0
    ensures forall p | p in s.producers :: !InFlight(s.producers[p])
    ensures s.stats.accepted == |s.log.sent|
  {
    assert forall p | p in s.producers && InFlight(s.producers[p]) :: p in Where(s.producers, CallsInFlight);
    assert Where(s.producers, CallsUncounted) == {};
  }

  lemma QuietCounts(s: State)
    requires Accounting(s) && Quiet(s)
    ensures s.stats.accepted == |s.log.sent|
  {
    assert Where(s.producers, CallsUncounted) == {};
  }

  lemma FlattenAppend(batches: seq<seq<nat>>, b: seq<nat>)
    ensures Flatten(batches + [b]) == Flatten(batches) + b
  {
    assert (batches + [b])[..|batches|] == batches;
  }

  // -- preservation by enqueue --------------------------------------------

  /** How far a counter moves when a call leaves `was` for `now`. */
  function Delta(s: State, call: nat, now: Producer, k: Tally): int {
    One(Tallied(k, now)) - One(call in s.producers && Tallied(k, s.producers[call]))
  }

  /** What a step of `enqueue` changes, and that each counter moves with the call. */
  ghost predicate EnqueueEffect(c: Config, s: State, t: State, call: nat) {
    && call in t.producers
    && t.producers == s.producers[call := t.producers[call]]
    && var v := t.producers[call];
    && t.front == s.front.(inFlight := s.front.inFlight + Delta(s, call, v, CallsInFlight))
    && t.stats.accepted == s.stats.accepted + Delta(s, call, v, CallsAccepted)
    && t.stats.dropped == s.stats.dropped + Delta(s, call, v, CallsDropped)
    && t.stats.rejected <= s.stats.rejected + Delta(s, call, v, CallsRejecting) + Delta(s, call, v, CallsDropped)
    && t.stats.exported == s.stats.exported && t.stats.failed == s.stats.failed
    && t.flushers == s.flushers && t.closers == s.closers && t.worker == s.worker
    && (if call in s.producers && s.producers[call].Admitted? && v.Uncounted? then
          && |s.io.events| < c.queueCapacity
          && t.io == s.io.(events := s.io.events + [call])
          && t.log == s.log.(sent := s.log.sent + [call])
        else t.io == s.io && t.log == s.log && (HasSent(v) <==> call in s.producers && HasSent(s.producers[call])))
    && (v.Admitted? ==> s.front.gate == Open)
    && (v.Uncounted? ==> call in s.producers && s.producers[call].Admitted?)
    && (call !in s.producers ==> s.front.connected)
    && (call in s.producers ==> InFlight(s.producers[call]))
  }

  lemma PushEffect(c: Config, s: State, call: nat)
    requires call in s.producers && s.producers[call].Admitted? && |s.io.events| < c.queueCapacity
    ensures EnqueueEffect(c, s, PushEvent(s, call), call)
  {
  }

  lemma CountAcceptedEffect(c: Config, s: State, call: nat)
    requires call in s.producers && s.producers[call].Uncounted?
    ensures EnqueueEffect(c, s, CountAccepted(s, call), call)
  {
  }

  lemma CountRejectedEffect(c: Config, s: State, call: nat)
    requires call in s.producers && s.producers[call].Refused?
    ensures EnqueueEffect(c, s, CountRejected(s, call), call)
  {
  }

  lemma CountDroppedEffect(c: Config, s: State, call: nat)
    requires call in s.producers && (s.producers[call].Rejected? || s.producers[call].Overflowed?)
    ensures EnqueueEffect(c, s, CountDropped(s, call), call)
  {
  }

  lemma LeaveEffect(c: Config, s: State, call: nat)
    requires call in s.producers
    ensures s.producers[call].Counted? ==> EnqueueEffect(c, s, Leave(s, call, DoneAccepted), call)
    ensures s.producers[call].Dropped? ==> EnqueueEffect(c, s, Leave(s, call, DoneDropped), call)
  {
  }

  lemma EnterEffect(c: Config, s: State, call: nat)
    requires call !in s.producers && s.front.connected
    ensures EnqueueEffect(c, s, Enqueue(c, s, call), call)
  {
  }

  lemma AdmitEffect(c: Config, s: State, call: nat)
    requires call in s.producers && s.producers[call].Entered?
    ensures EnqueueEffect(c, s, Enqueue(c, s, call), call)
  {
  }

  lemma OverflowEffect(c: Config, s: State, call: nat)
    requires call in s.producers && s.producers[call].Admitted?
    ensures EnqueueEffect(c, s, MoveProducer(s, call, Overflowed), call)
  {
  }

  lemma EnqueueHasEffect(c: Config, s: State, call: nat)
    requires EnqueueEnabled(s, call)
    ensures EnqueueEffect(c, s, Enqueue(c, s, call), call)
  {
    if call !in s.producers {
      EnterEffect(c, s, call);
    } else {
      match s.producers[call]
      case Entered => AdmitEffect(c, s, call);
      case Admitted =>
        OverflowEffect(c, s, call);
        if |s.io.events| < c.queueCapacity { PushEffect(c, s, call); }
      case Uncounted => CountAcceptedEffect(c, s, call);
      case Refused => CountRejectedEffect(c, s, call);
      case Rejected => CountDroppedEffect(c, s, call);
      case Overflowed => CountDroppedEffect(c, s, call);
      case _ => LeaveEffect(c, s, call);
    }
  }

  lemma EnqueueAccounting(c: Config, s: State, t: State, call: nat)
    requires Accounting(s) && EnqueueEffect(c, s, t, call)
    ensures Accounting(t)
  {
    var v := t.producers[call];
    WhereUpdate(s.producers, call, v, CallsInFlight);
    WhereUpdate(s.producers, call, v, CallsAccepted);
    WhereUpdate(s.producers, call, v, CallsDropped);
    WhereUpdate(s.producers, call, v, CallsRejecting);
    WhereUpdate(s.producers, call, v, CallsUncounted);
  }

  lemma EnqueueIdentity(c: Config, s: State, t: State, call: nat)
    requires Identity(s) && EnqueueEffect(c, s, t, call)
    ensures Identity(t)
  {
  }

  lemma EnqueueDelivery(c: Config, s: State, t: State, call: nat)
    requires Delivery(c, s) && EnqueueEffect(c, s, t, call)
    ensures Delivery(c, t)
  {
  }

  lemma EnqueueFlushing(c: Config, s: State, t: State, call: nat)
    requires Flushing(s) && EnqueueEffect(c, s, t, call)
    ensures Flushing(t)
  {
  }

  lemma EnqueueClosure(c: Config, s: State, t: State, call: nat)
    requires Closure(s) && EnqueueEffect(c, s, t, call)
    ensures Closure(t)
  {
    assert s.log.sealed || Finishing(s.worker.phase) || !s.front.connected ==> t.log == s.log;
  }

  lemma EnqueueInv(c: Config, s: State, call: nat)
    requires Inv(c, s) && EnqueueEnabled(s, call)
    ensures Inv(c, Enqueue(c, s, call))
  {
    var t := Enqueue(c, s, call);
    EnqueueHasEffect(c, s, call);
    EnqueueAccounting(c, s, t, call);
    EnqueueIdentity(c, s, t, call);
    EnqueueDelivery(c, s, t, call);
    EnqueueFlushing(c, s, t, call);
    EnqueueClosure(c, s, t, call);
  }

  // -- preservation by flush ----------------------------------------------

  /** The parts of the state that a step of `flush` leaves alone. */
  ghost predicate FlushFrame(s: State, t: State) {
    && t.front == s.front && t.stats == s.stats && t.producers == s.producers
    && t.closers == s.closers && t.worker == s.worker && t.log == s.log
    && t.io == s.io.(flushes := t.io.flushes)
  }

  lemma FlushFrames(c: Config, s: State, id: nat)
    requires FlushEnabled(s, id)
    ensures FlushFrame(s, Flush(c, s, id))
  {
  }

  lemma FlushRest(c: Config, s: State, t: State)
    requires Inv(c, s) && FlushFrame(s, t)
    requires s.front.connected || t.flushers == s.flushers
    ensures Accounting(t) && Identity(t) && Delivery(c, t) && Closure(t)
  {
  }

  lemma MoveFlusherFlushing(s: State, id: nat, x: Flusher)
    requires Flushing(s) && FlusherFits(s, x) && !x.FlushSent?
    requires id in s.flushers && FlushCommitted(s.flushers[id]) ==> FlushCommitted(x)
    ensures Flushing(MoveFlusher(s, id, x))
  {
  }

  lemma SendFlushFlushing(c: Config, s: State, id: nat, b: nat, target: nat)
    requires Flushing(s) && id in s.flushers && s.flushers[id] == FlushTarget(b, target)
    ensures Flushing(SendFlush(c, s, id, b, target))
  {
    assert FlusherFits(s, s.flushers[id]);
  }

  lemma FlushFlushing(c: Config, s: State, id: nat)
    requires Accounting(s) && Flushing(s) && FlushEnabled(s, id)
    ensures Flushing(Flush(c, s, id))
  {
    if s.front.inFlight == 0 { NoneInFlight(s); }
    if id !in s.flushers {
      MoveFlusherFlushing(s, id, FlushStarted(|s.log.sent|));
    } else {
      assert FlusherFits(s, s.flushers[id]);
      match s.flushers[id]
      case FlushTarget(b, target) => SendFlushFlushing(c, s, id, b, target);
      case FlushStarted(b) =>
        MoveFlusherFlushing(s, id, if s.front.gate == Open then FlushWaiting(b) else FlushErr(b));
      case FlushWaiting(b) => MoveFlusherFlushing(s, id, FlushBarrier(b));
      case FlushBarrier(b) => MoveFlusherFlushing(s, id, FlushTarget(b, s.stats.accepted));
      case FlushSent(b, _) => MoveFlusherFlushing(s, id, FlushOk(b, s.io.responses[id]));
    }
  }

  lemma FlushInv(c: Config, s: State, id: nat)
    requires Inv(c, s) && FlushEnabled(s, id)
    ensures Inv(c, Flush(c, s, id))
  {
    FlushFrames(c, s, id);
    FlushRest(c, s, Flush(c, s, id));
    FlushFlushing(c, s, id);
  }

  // -- preservation by shutdown -------------------------------------------

  /** The parts of the state that a step of `shutdown` leaves alone. */
  ghost predicate CloseFrame(s: State, t: State) {
    && t.front.inFlight == s.front.inFlight && t.front.connected == s.front.connected
    && t.stats == s.stats && t.producers == s.producers
    && t.flushers == s.flushers && t.worker == s.worker
    && t.log.sent == s.log.sent && t.log.batches == s.log.batches
    && t.io == s.io.(shutdowns := t.io.shutdowns)
  }

  lemma CloseFrames(s: State, id: nat)
    requires CloseEnabled(s, id)
    ensures CloseFrame(s, Close(s, id))
  {
  }

  lemma CloseRest(c: Config, s: State, t: State)
    requires Inv(c, s) && CloseFrame(s, t)
    ensures Accounting(t) && Identity(t) && Delivery(c, t) && Flushing(t)
  {
  }

  /** Moving one caller keeps the closure facts of the others. */
  lemma MoveCloserClosure(s: State, id: nat, x: Closer)
    requires Closure(s) && CloserFits(s, id, x)
    requires !s.front.connected ==> CloserDone(x)
    ensures Closure(MoveCloser(s, id, x))
  {
  }

  lemma CloseGateClosure(s: State, id: nat)
    requires Closure(s) && s.front.connected
    ensures Closure(CloseGate(s, id))
  {
  }

  lemma SealClosure(s: State, id: nat)
    requires Accounting(s) && Closure(s) && s.front.connected && s.front.inFlight == 0
    requires id in s.closers && s.closers[id].CloseWaiting?
    ensures Closure(MoveCloser(s, id, CloseBarrier).(log := s.log.(sealed := true)))
  {
    NoneInFlight(s);
    assert CloserFits(s, id, s.closers[id]);
  }

  lemma ElectClosure(s: State, id: nat)
    requires Closure(s) && s.front.connected && id in s.closers && s.closers[id].CloseBarrier?
    ensures Closure(Elect(s, id))
  {
    assert CloserFits(s, id, s.closers[id]);
  }

  lemma SendShutdownClosure(s: State, id: nat, target: nat)
    requires Closure(s) && s.front.connected && id in s.closers && s.closers[id] == CloseTarget(target)
    ensures Closure(SendShutdown(s, id, target))
  {
    assert CloserFits(s, id, s.closers[id]);
  }

  lemma CloseClosure(s: State, id: nat)
    requires Accounting(s) && Closure(s) && CloseEnabled(s, id)
    ensures Closure(Close(s, id))
  {
    if id !in s.closers {
      MoveCloserClosure(s, id, CloseStarted);
    } else {
      assert CloserFits(s, id, s.closers[id]) && s.front.connected;
      if s.log.sealed { QuietCounts(s); }
      match s.closers[id]
      case CloseStarted => CloseGateClosure(s, id);
      case CloseWaiting => SealClosure(s, id);
      case CloseBarrier => ElectClosure(s, id);
      case CloseElected => MoveCloserClosure(s, id, CloseTarget(s.stats.accepted));
      case CloseTarget(target) => SendShutdownClosure(s, id, target);
      case CloseJoining => MoveCloserClosure(s, id, Close(s, id).closers[id]);
      case CloseStats(k, st) => MoveCloserClosure(s, id, Close(s, id).closers[id]);
    }
  }

  lemma CloseInv(c: Config, s: State, id: nat)
    requires Inv(c, s) && CloseEnabled(s, id)
    ensures Inv(c, Close(s, id))
  {
    CloseFrames(s, id);
    CloseRest(c, s, Close(s, id));
    CloseClosure(s, id);
  }

  // -- preservation by the worker -----------------------------------------

  /** The parts of the state that the worker leaves alone. */
  ghost predicate WorkFrame(s: State, t: State) {
    && t.front.inFlight == s.front.inFlight && t.front.connected == s.front.connected
    && t.front.admitted == s.front.admitted
    && t.stats.accepted == s.stats.accepted && t.stats.dropped == s.stats.dropped
    && t.stats.rejected == s.stats.rejected
    && t.producers == s.producers && t.flushers == s.flushers && t.closers == s.closers
    && t.log.sent == s.log.sent && t.log.elected == s.log.elected && t.log.sealed == s.log.sealed
    && t.worker.processed >= s.worker.processed
  }

  /** The flush part of the state is the same. */
  predicate SameFlushes(s: State, t: State) {
    && t.io.flushes == s.io.flushes && t.io.responses == s.io.responses
    && t.worker.pendingFlush == s.worker.pendingFlush
  }

  /** The shutdown part of the state is the same and the worker stays in its loop. */
  predicate SameShutdowns(s: State, t: State) {
    && t.front == s.front && t.io.shutdowns == s.io.shutdowns
    && t.worker.pendingShutdown == s.worker.pendingShutdown
    && t.log.exporterShutdowns == s.log.exporterShutdowns
    && !Finishing(s.worker.phase) && !Finishing(t.worker.phase)
  }

  lemma WorkCounts(s: State, t: State)
    requires Accounting(s) && Identity(s) && WorkFrame(s, t)
    ensures Accounting(t) && Identity(t)
  {
  }

  lemma SameFlushing(s: State, t: State)
    requires Flushing(s) && WorkFrame(s, t) && SameFlushes(s, t)
    ensures Flushing(t)
  {
    forall f | f in t.flushers ensures FlusherFits(t, t.flushers[f]) { assert FlusherFits(s, s.flushers[f]); }
  }

  /** A step that neither takes an event nor exports nor loads a statistic. */
  lemma SameDelivery(c: Config, s: State, t: State)
    requires Delivery(c, s) && s.worker.batch == [] && t.worker.batch == []
    requires t.stats == s.stats && t.log.sent == s.log.sent && t.log.batches == s.log.batches
    requires t.io.events == s.io.events && t.worker.processed == s.worker.processed
    requires !t.worker.phase.Export? && !t.worker.phase.Load? && !t.worker.phase.Answer?
    ensures Delivery(c, t)
  {
  }

  lemma SameClosure(s: State, t: State)
    requires Closure(s) && WorkFrame(s, t) && SameShutdowns(s, t)
    ensures Closure(t)
  {
  }

  lemma LoopInv(c: Config, s: State, t: State)
    requires Inv(c, s) && WorkFrame(s, t) && SameFlushes(s, t) && SameShutdowns(s, t) && Delivery(c, t)
    ensures Inv(c, t)
  {
    WorkCounts(s, t);
    SameFlushing(s, t);
    SameClosure(s, t);
  }

  lemma GotoInv(c: Config, s: State, phase: WorkerPhase)
    requires Inv(c, s) && !Finishing(s.worker.phase) && !Finishing(phase) && !phase.Answer?
    requires phase.Load? ==> phase.loaded == 0
    requires phase.Export? <==> !phase.Fill? && s.worker.batch != []
    ensures Inv(c, Goto(s, phase))
  {
    LoopInv(c, s, Goto(s, phase));
  }

  lemma TakeEventInv(c: Config, s: State)
    requires Inv(c, s) && !Finishing(s.worker.phase)
    requires s.io.events != [] && |s.worker.batch| < c.maxBatch
    ensures Inv(c, TakeEvent(s, Fill))
  {
    LoopInv(c, s, TakeEvent(s, Fill));
  }

  lemma ExportInv(c: Config, s: State, ok: bool)
    requires Inv(c, s) && s.worker.phase.Export?
    ensures Inv(c, DoExport(s, ok))
  {
    FlattenAppend(s.log.batches, s.worker.batch);
    LoopInv(c, s, DoExport(s, ok));
  }

  lemma LoadInv(c: Config, s: State)
    requires Inv(c, s) && s.worker.phase.Load?
    ensures Inv(c, DoLoad(s, s.worker.phase.loaded))
  {
    LoopInv(c, s, DoLoad(s, s.worker.phase.loaded));
  }

  lemma TakeShutdownInv(c: Config, s: State)
    requires Inv(c, s) && s.worker.phase.PollShutdown? && s.io.shutdowns != []
    ensures Inv(c, TakeShutdown(s))
  {
    var t := TakeShutdown(s);
    WorkCounts(s, t);
    SameDelivery(c, s, t);
    SameFlushing(s, t);
    assert s.io.shutdowns == [s.io.shutdowns[0]];
  }

  lemma TakeFlushing(s: State)
    requires Flushing(s) && s.io.flushes != []
    ensures Flushing(TakeFlush(s))
  {
    assert s.io.flushes[0] in s.io.flushes;
    assert forall cmd | cmd in s.io.flushes[1..] :: cmd in s.io.flushes;
    var t := TakeFlush(s);
    forall cmd | cmd in t.io.flushes ensures CommandFits(t, cmd) { assert CommandFits(s, cmd); }
    forall f | f in t.flushers ensures FlusherFits(t, t.flushers[f]) { assert FlusherFits(s, s.flushers[f]); }
  }

  lemma TakeFlushInv(c: Config, s: State)
    requires Inv(c, s) && s.worker.phase.PollFlush? && s.io.flushes != []
    ensures Inv(c, TakeFlush(s))
  {
    var t := TakeFlush(s);
    WorkCounts(s, t);
    SameDelivery(c, s, t);
    TakeFlushing(s);
    SameClosure(s, t);
  }

  lemma AnswerFlushing(c: Config, s: State)
    requires Delivery(c, s) && Flushing(s) && s.worker.phase.Answer? && s.worker.pendingFlush.Some?
    requires s.worker.processed >= s.worker.pendingFlush.value.target
    ensures Flushing(SendAnswer(s, s.worker.pendingFlush.value.id))
  {
    var t := SendAnswer(s, s.worker.pendingFlush.value.id);
    forall cmd | cmd in t.io.flushes ensures CommandFits(t, cmd) { assert CommandFits(s, cmd); }
    forall f | f in t.flushers ensures FlusherFits(t, t.flushers[f]) { assert FlusherFits(s, s.flushers[f]); }
  }

  lemma AnswerInv(c: Config, s: State)
    requires Inv(c, s) && s.worker.phase.Answer? && s.worker.pendingFlush.Some?
    requires s.worker.processed >= s.worker.pendingFlush.value.target
    ensures Inv(c, SendAnswer(s, s.worker.pendingFlush.value.id))
  {
    var t := SendAnswer(s, s.worker.pendingFlush.value.id);
    WorkCounts(s, t);
    SameDelivery(c, s, t);
    AnswerFlushing(c, s);
    SameClosure(s, t);
  }

  /** The worker starts to finish only when every sent event is processed and counted. */
  lemma EnterFinishInv(c: Config, s: State)
    requires Inv(c, s) && !Finishing(s.worker.phase) && s.worker.batch == []
    requires || (s.worker.pendingShutdown.Some? && s.worker.processed >= s.worker.pendingShutdown.value)
             || (!s.front.connected && s.io.events == [])
    ensures Inv(c, Goto(s, Finish))
  {
    var t := Goto(s, Finish);
    QuietCounts(s);
    WorkCounts(s, t);
    SameFlushing(s, t);
  }

  lemma DoFinishInv(c: Config, s: State, ok: bool)
    requires Inv(c, s) && s.worker.phase.Finish?
    ensures Inv(c, DoFinish(s, ok))
  {
    var t := DoFinish(s, ok);
    WorkCounts(s, t);
    SameFlushing(s, t);
  }

  lemma StoreErrorInv(c: Config, s: State)
    requires Inv(c, s) && s.worker.phase.StoreError?
    ensures Inv(c, Goto(s, StoreClosed).(front := s.front.(error := s.worker.shutdownFailed)))
  {
    var t := Goto(s, StoreClosed).(front := s.front.(error := s.worker.shutdownFailed));
    WorkCounts(s, t);
    SameFlushing(s, t);
  }

  lemma StoreClosedInv(c: Config, s: State)
    requires Inv(c, s) && s.worker.phase.StoreClosed?
    ensures Inv(c, Goto(s, Exited).(front := s.front.(gate := Closed)))
  {
    var t := Goto(s, Exited).(front := s.front.(gate := Closed));
    WorkCounts(s, t);
    SameFlushing(s, t);
  }

  lemma CheckInv(c: Config, s: State)
    requires Inv(c, s) && s.worker.phase.Check?
    ensures Inv(c, DoCheck(s))
  {
    var pending := s.worker.pendingShutdown;
    if pending.Some? && s.worker.processed >= pending.value { EnterFinishInv(c, s); }
    else { GotoInv(c, s, PollShutdown); }
  }

  lemma ReceiveInv(c: Config, s: State)
    requires ValidConfig(c) && Inv(c, s) && s.worker.phase.Receive?
    ensures Inv(c, DoReceive(s))
  {
    if s.io.events != [] { TakeEventInv(c, s); }
    else if s.front.connected { GotoInv(c, s, Fill); }
    else { EnterFinishInv(c, s); }
  }

  lemma FillInv(c: Config, s: State)
    requires Inv(c, s) && s.worker.phase.Fill?
    ensures Inv(c, DoFill(c, s))
  {
    if |s.worker.batch| < c.maxBatch && s.io.events != [] { TakeEventInv(c, s); }
    else { GotoInv(c, s, if s.worker.batch == [] then Load(0) else Export); }
  }

  lemma PollInv(c: Config, s: State)
    requires Inv(c, s)
    ensures s.worker.phase.PollShutdown? ==> Inv(c, DoPollShutdown(s))
    ensures s.worker.phase.PollFlush? ==> Inv(c, DoPollFlush(s))
  {
    if s.worker.phase.PollShutdown? {
      if s.worker.pendingShutdown.None? && s.io.shutdowns != [] { TakeShutdownInv(c, s); }
      else { GotoInv(c, s, PollFlush); }
    } else if s.worker.phase.PollFlush? {
      if s.worker.pendingFlush.None? && s.worker.pendingShutdown.None? && s.io.flushes != [] { TakeFlushInv(c, s); }
      else { GotoInv(c, s, Receive); }
    }
  }

  lemma DoAnswerInv(c: Config, s: State)
    requires Inv(c, s) && s.worker.phase.Answer?
    ensures Inv(c, DoAnswer(s))
  {
    if s.worker.pendingFlush.Some? && s.worker.processed >= s.worker.pendingFlush.value.target { AnswerInv(c, s); }
    else { GotoInv(c, s, Check); }
  }

  predicate Collecting(x: WorkerPhase) {
    x.PollShutdown? || x.PollFlush? || x.Receive? || x.Fill? || x.Export?
  }

  lemma CollectInv(c: Config, s: State, ok: bool)
    requires ValidConfig(c) && Inv(c, s) && Collecting(s.worker.phase)
    ensures Inv(c, Work(c, s, ok))
  {
    match s.worker.phase
    case PollShutdown => PollInv(c, s);
    case PollFlush => PollInv(c, s);
    case Receive => ReceiveInv(c, s);
    case Fill => FillInv(c, s);
    case Export => ExportInv(c, s, ok);
  }

  lemma ReportInv(c: Config, s: State, ok: bool)
    requires Inv(c, s) && !Collecting(s.worker.phase) && WorkerEnabled(s)
    ensures Inv(c, Work(c, s, ok))
  {
    match s.worker.phase
    case Load(_) => LoadInv(c, s);
    case Answer => DoAnswerInv(c, s);
    case Check => CheckInv(c, s);
    case Finish => DoFinishInv(c, s, ok);
    case StoreError => StoreErrorInv(c, s);
    case StoreClosed => StoreClosedInv(c, s);
  }

  lemma WorkInv(c: Config, s: State, ok: bool)
    requires ValidConfig(c) && Inv(c, s) && WorkerEnabled(s)
    ensures Inv(c, Work(c, s, ok))
  {
    if Collecting(s.worker.phase) { CollectInv(c, s, ok); } else { ReportInv(c, s, ok); }
  }

  // -- the rest and whole runs --------------------------------------------

  lemma FlushTimeoutInv(c: Config, s: State, id: nat)
    requires Inv(c, s) && FlushTimeoutEnabled(s, id)
    ensures Inv(c, MoveFlusher(s, id, FlushErr(s.flushers[id].began)))
  {
    var x := FlushErr(s.flushers[id].began);
    assert FlusherFits(s, s.flushers[id]);
    MoveFlusherFlushing(s, id, x);
    FlushRest(c, s, MoveFlusher(s, id, x));
  }

  lemma CloseTimeoutInv(c: Config, s: State, id: nat)
    requires Inv(c, s) && CloseTimeoutEnabled(s, id)
    ensures Inv(c, MoveCloser(s, id, CloseErr))
  {
    assert CloserFits(s, id, s.closers[id]);
    MoveCloserClosure(s, id, CloseErr);
    CloseRest(c, s, MoveCloser(s, id, CloseErr));
  }

  lemma DropInv(c: Config, s: State)
    requires Inv(c, s) && DropEnabled(s)
    ensures Inv(c, s.(front := s.front.(connected := false)))
  {
  }

  lemma InitInv(c: Config)
    ensures Inv(c, INIT)
  {
  }

  lemma StepInv(c: Config, s: State, step: Step)
    requires ValidConfig(c) && Inv(c, s) && Enabled(s, step)
    ensures Inv(c, Apply(c, s, step))
  {
    match step
    case EnqueueStep(call) => EnqueueInv(c, s, call);
    case FlushStep(id) => FlushInv(c, s, id);
    case FlushTimeout(id) => FlushTimeoutInv(c, s, id);
    case CloseStep(id) => CloseInv(c, s, id);
    case CloseTimeout(id) => CloseTimeoutInv(c, s, id);
    case WorkerStep(ok) => WorkInv(c, s, ok);
    case DropHandles => DropInv(c, s);
  }

  lemma {:induction false} RunInv(c: Config, run: seq<State>, steps: seq<Step>, i: nat)
    requires ValidConfig(c) && IsRun(c, run, steps) && i < |run|
    ensures Inv(c, run[i])
  {
    if i == 0 {
      InitInv(c);
    } else {
      RunInv(c, run, steps, i - 1);
      StepInv(c, run[i - 1], steps[i - 1]);
    }
  }
}
