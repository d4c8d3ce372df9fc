/**
 The bounded asynchronous exporter as a transition system: many producers, many
 flush and shutdown callers, one worker. Every step is one atomic access or one
 channel operation; atomics are sequentially consistent. An exporter call, which
 touches nothing the other threads see, is one step with the counter increment
 that follows it.
 A call of `enqueue` is named by a number, which also names the event it carries.
 */
module Exporter {

  import opened Wrappers

  datatype Config = Config(queueCapacity: nat, controlCapacity: nat, maxBatch: nat)

  predicate ValidConfig(c: Config) {
    c.queueCapacity > 0 && c.controlCapacity > 0 && c.maxBatch > 0
  }

  datatype Gate = Open | Closing | Closed

  /** Where one call of `enqueue` stands. */
  datatype Producer =
    | Entered        // in-flight count incremented
    | Admitted       // read the gate as open
    | Uncounted      // event sent, `accepted` not incremented yet
    | Counted        // `accepted` incremented
    | Refused        // read the gate as not open
    | Rejected       // `rejected_after_shutdown` incremented
    | Overflowed     // the channel refused the event
    | Dropped        // `dropped` incremented
    | DoneAccepted
    | DoneDropped

  datatype Stats = Stats(accepted: nat, dropped: nat, exported: nat, failed: nat, rejected: nat)

  const ZERO_STATS := Stats(0, 0, 0, 0, 0)

  /** Where one call of `flush` stands; `began` is the number of events sent when it began. */
  datatype Flusher =
    | FlushStarted(began: nat)
    | FlushWaiting(began: nat)                  // gate was open, waiting for no in-flight enqueue
    | FlushBarrier(began: nat)                  // saw the in-flight count at 0
    | FlushTarget(began: nat, target: nat)      // read `accepted`
    | FlushSent(began: nat, target: nat)        // command sent, waiting for the answer
    | FlushOk(began: nat, stats: Stats)
    | FlushErr(began: nat)

  /** Where one call of `shutdown` stands. */
  datatype Closer =
    | CloseStarted
    | CloseWaiting                  // gate is not open, waiting for no in-flight enqueue
    | CloseBarrier                  // saw the in-flight count at 0
    | CloseElected                  // won `shutdown_admitted`
    | CloseTarget(target: nat)      // read `accepted`
    | CloseSendFailed               // the shutdown channel refused the target
    | CloseJoining                  // waiting for CLOSED and the worker thread
    | CloseStats(loaded: nat, stats: Stats)
    | CloseOk(stats: Stats)
    | CloseErr

  datatype FlushCommand = FlushCommand(id: nat, target: nat)

  datatype WorkerPhase =
    | PollShutdown | PollFlush | Receive | Fill | Export
    | Load(loaded: nat) | Answer | Check
    | Finish | StoreError | StoreClosed | Exited

  datatype Worker = Worker(
    phase: WorkerPhase,
    processed: nat,
    pendingFlush: Option<FlushCommand>,
    pendingShutdown: Option<nat>,
    batch: seq<nat>,
    snapshot: Stats,
    shutdownFailed: bool)

  /** The atomics of `AsyncExportInner` that are not statistics. */
  datatype Front = Front(
    gate: Gate,
    inFlight: int,
    admitted: bool,
    error: bool,
    connected: bool)                    // some emitter handle is alive

  datatype Channels = Channels(
    events: seq<nat>,
    flushes: seq<FlushCommand>,
    shutdowns: seq<nat>,
    responses: map<nat, Stats>)

  /** History variables: they record the run and no step reads them. */
  datatype Log = Log(
    sent: seq<nat>,
    batches: seq<seq<nat>>,
    exporterShutdowns: nat,
    elected: Option<nat>,               // the shutdown caller that won `shutdown_admitted`
    sealed: bool)                       // a shutdown caller has seen the in-flight count at 0

  datatype State = State(
    front: Front,
    stats: Stats,
    io: Channels,
    producers: map<nat, Producer>,
    flushers: map<nat, Flusher>,
    closers: map<nat, Closer>,
    worker: Worker,
    log: Log)

  const INIT := State(
    Front(Open, 0, false, false, true), ZERO_STATS, Channels([], [], [], map[]), map[], map[], map[],
    Worker(PollShutdown, 0, None, None, [], ZERO_STATS, false),
    Log([], [], 0, None, false))

  function Flatten(batches: seq<seq<nat>>): seq<nat> {
    if batches == [] then [] else Flatten(batches[..|batches| - 1]) + batches[|batches| - 1]
  }

  /** The events handed to the exporter, in order, whether it accepted them or failed. */
  function Processed(s: State): seq<nat> {
    Flatten(s.log.batches)
  }

  datatype Step =
    | EnqueueStep(call: nat)
    | FlushStep(id: nat)
    | FlushTimeout(id: nat)
    | CloseStep(id: nat)
    | CloseTimeout(id: nat)
    | WorkerStep(succeeds: bool)        // the outcome of the exporter call, if the step makes one
    | DropHandles

  /** One load of the statistics, in the order of `stats`. */
  function LoadStat(now: Stats, soFar: Stats, k: nat): Stats {
    match k
    case 0 => soFar.(accepted := now.accepted)
    case 1 => soFar.(dropped := now.dropped)
    case 2 => soFar.(exported := now.exported)
    case 3 => soFar.(failed := now.failed)
    case _ => soFar.(rejected := now.rejected)
  }

  // -- enqueue ------------------------------------------------------------

  predicate EnqueueEnabled(s: State, call: nat) {
    if call !in s.producers then s.front.connected
    else !s.producers[call].DoneAccepted? && !s.producers[call].DoneDropped?
  }

  function Enqueue(c: Config, s: State, call: nat): State
    requires EnqueueEnabled(s, call)
  {
    if call !in s.producers then
      MoveProducer(s, call, Entered).(front := s.front.(inFlight := s.front.inFlight + 1))
    else
      match s.producers[call]
      case Entered => MoveProducer(s, call, if s.front.gate == Open then Admitted else Refused)
      case Admitted => TrySend(c, s, call)
      case Uncounted => CountAccepted(s, call)
      case Refused => CountRejected(s, call)
      case Rejected => CountDropped(s, call)
      case Overflowed => CountDropped(s, call)
      case Counted => Leave(s, call, DoneAccepted)
      case Dropped => Leave(s, call, DoneDropped)
  }

  function MoveProducer(s: State, call: nat, to: Producer): State {
    s.(producers := s.producers[call := to])
  }

  function TrySend(c: Config, s: State, call: nat): State {
    if |s.io.events| < c.queueCapacity && !s.worker.phase.Exited? then PushEvent(s, call)
    else MoveProducer(s, call, Overflowed)
  }

  function PushEvent(s: State, call: nat): State {
    MoveProducer(s, call, Uncounted).(
      io := s.io.(events := s.io.events + [call]), log := s.log.(sent := s.log.sent + [call]))
  }

  function CountAccepted(s: State, call: nat): State {
    MoveProducer(s, call, Counted).(stats := s.stats.(accepted := s.stats.accepted + 1))
  }

  function CountRejected(s: State, call: nat): State {
    MoveProducer(s, call, Rejected).(stats := s.stats.(rejected := s.stats.rejected + 1))
  }

  function CountDropped(s: State, call: nat): State {
    MoveProducer(s, call, Dropped).(stats := s.stats.(dropped := s.stats.dropped + 1))
  }

  function Leave(s: State, call: nat, done: Producer): State {
    MoveProducer(s, call, done).(front := s.front.(inFlight := s.front.inFlight - 1))
  }

  // -- flush --------------------------------------------------------------

  predicate FlushEnabled(s: State, id: nat) {
    if id !in s.flushers then s.front.connected
    else
      match s.flushers[id]
      case FlushWaiting(_) => s.front.inFlight == 0
      case FlushSent(_, _) => id in s.io.responses
      case FlushOk(_, _) => false
      case FlushErr(_) => false
      case _ => true
  }

  function Flush(c: Config, s: State, id: nat): State
    requires FlushEnabled(s, id)
  {
    if id !in s.flushers then MoveFlusher(s, id, FlushStarted(|s.log.sent|))
    else
      match s.flushers[id]
      case FlushStarted(b) => MoveFlusher(s, id, if s.front.gate == Open then FlushWaiting(b) else FlushErr(b))
      case FlushWaiting(b) => MoveFlusher(s, id, FlushBarrier(b))
      case FlushBarrier(b) => MoveFlusher(s, id, FlushTarget(b, s.stats.accepted))
      case FlushTarget(b, t) => SendFlush(c, s, id, b, t)
      case FlushSent(b, t) => MoveFlusher(s, id, FlushOk(b, s.io.responses[id]))
  }

  function MoveFlusher(s: State, id: nat, to: Flusher): State {
    s.(flushers := s.flushers[id := to])
  }

  function SendFlush(c: Config, s: State, id: nat, began: nat, target: nat): State {
    if |s.io.flushes| < c.controlCapacity && !s.worker.phase.Exited? then
      MoveFlusher(s, id, FlushSent(began, target)).(
        io := s.io.(flushes := s.io.flushes + [FlushCommand(id, target)]))
    else
      MoveFlusher(s, id, FlushErr(began))
  }

  predicate FlushTimeoutEnabled(s: State, id: nat) {
    id in s.flushers && (s.flushers[id].FlushWaiting? || s.flushers[id].FlushSent?)
  }

  // -- shutdown -----------------------------------------------------------

  predicate CloseEnabled(s: State, id: nat) {
    if id !in s.closers then s.front.connected
    else
      match s.closers[id]
      case CloseWaiting => s.front.inFlight == 0
      case CloseJoining => s.front.gate == Closed && s.worker.phase.Exited?
      case CloseOk(_) => false
      case CloseErr => false
      case _ => true
  }

  function Close(s: State, id: nat): State
    requires CloseEnabled(s, id)
  {
    if id !in s.closers then MoveCloser(s, id, CloseStarted)
    else
      match s.closers[id]
      case CloseStarted => CloseGate(s, id)
      case CloseWaiting => MoveCloser(s, id, CloseBarrier).(log := s.log.(sealed := true))
      case CloseBarrier => Elect(s, id)
      case CloseElected => MoveCloser(s, id, CloseTarget(s.stats.accepted))
      case CloseTarget(t) => SendShutdown(s, id, t)
      case CloseSendFailed => MoveCloser(s, id, CloseJoining).(front := s.front.(gate := Closed))
      case CloseJoining => MoveCloser(s, id, if s.front.error then CloseErr else CloseStats(0, ZERO_STATS))
      case CloseStats(k, st) => LoadFinal(s, id, k, st)
  }

  function MoveCloser(s: State, id: nat, to: Closer): State {
    s.(closers := s.closers[id := to])
  }

  function CloseGate(s: State, id: nat): State {
    MoveCloser(s, id, CloseWaiting).(
      front := s.front.(gate := if s.front.gate == Open then Closing else s.front.gate))
  }

  function Elect(s: State, id: nat): State {
    if s.front.admitted then MoveCloser(s, id, CloseJoining)
    else
      MoveCloser(s, id, CloseElected).(
        front := s.front.(admitted := true), log := s.log.(elected := Some(id)))
  }

  function SendShutdown(s: State, id: nat, target: nat): State {
    if s.io.shutdowns == [] && !s.worker.phase.Exited? then
      MoveCloser(s, id, CloseJoining).(io := s.io.(shutdowns := [target]))
    else
      MoveCloser(s, id, CloseSendFailed).(front := s.front.(error := true))
  }

  function LoadFinal(s: State, id: nat, k: nat, st: Stats): State {
    var st' := LoadStat(s.stats, st, k);
    MoveCloser(s, id, if k >= 4 then CloseOk(st') else CloseStats(k + 1, st'))
  }

  predicate CloseTimeoutEnabled(s: State, id: nat) {
    id in s.closers && (s.closers[id].CloseWaiting? || s.closers[id].CloseJoining?)
  }

  // -- worker -------------------------------------------------------------

  predicate WorkerEnabled(s: State) {
    !s.worker.phase.Exited?
  }

  function Work(c: Config, s: State, succeeds: bool): State
    requires WorkerEnabled(s)
  {
    match s.worker.phase
    case PollShutdown => DoPollShutdown(s)
    case PollFlush => DoPollFlush(s)
    case Receive => DoReceive(s)
    case Fill => DoFill(c, s)
    case Export => DoExport(s, succeeds)
    case Load(k) => DoLoad(s, k)
    case Answer => DoAnswer(s)
    case Check => DoCheck(s)
    case Finish => DoFinish(s, succeeds)
    case StoreError => Goto(s, StoreClosed).(front := s.front.(error := s.worker.shutdownFailed))
    case StoreClosed => Goto(s, Exited).(front := s.front.(gate := Closed))
  }

  function Goto(s: State, phase: WorkerPhase): State {
    s.(worker := s.worker.(phase := phase))
  }

  function DoPollShutdown(s: State): State {
    if s.worker.pendingShutdown.None? && s.io.shutdowns != [] then TakeShutdown(s) else Goto(s, PollFlush)
  }

  function TakeShutdown(s: State): State
    requires s.io.shutdowns != []
  {
    s.(io := s.io.(shutdowns := s.io.shutdowns[1..]),
       worker := s.worker.(phase := PollFlush, pendingShutdown := Some(s.io.shutdowns[0])))
  }

  function DoPollFlush(s: State): State {
    if s.worker.pendingFlush.None? && s.worker.pendingShutdown.None? && s.io.flushes != [] then TakeFlush(s)
    else Goto(s, Receive)
  }

  function TakeFlush(s: State): State
    requires s.io.flushes != []
  {
    s.(io := s.io.(flushes := s.io.flushes[1..]),
       worker := s.worker.(phase := Receive, pendingFlush := Some(s.io.flushes[0])))
  }

  /** `recv_timeout`: an event, a timeout on an empty channel, or disconnection once drained. */
  function DoReceive(s: State): State {
    if s.io.events != [] then TakeEvent(s, Fill)
    else Goto(s, if s.front.connected then Fill else Finish)
  }

  function TakeEvent(s: State, phase: WorkerPhase): State
    requires s.io.events != []
  {
    s.(io := s.io.(events := s.io.events[1..]),
       worker := s.worker.(phase := phase, batch := s.worker.batch + [s.io.events[0]]))
  }

  function DoFill(c: Config, s: State): State {
    if |s.worker.batch| < c.maxBatch && s.io.events != [] then TakeEvent(s, Fill)
    else Goto(s, if s.worker.batch == [] then Load(0) else Export)
  }

  function DoExport(s: State, succeeds: bool): State {
    var n := |s.worker.batch|;
    s.(stats := if succeeds then s.stats.(exported := s.stats.exported + n)
                else s.stats.(failed := s.stats.failed + n),
       log := s.log.(batches := s.log.batches + [s.worker.batch]),
       worker := s.worker.(phase := Load(0), processed := s.worker.processed + n, batch := []))
  }

  function DoLoad(s: State, k: nat): State {
    s.(worker := s.worker.(snapshot := LoadStat(s.stats, s.worker.snapshot, k),
                           phase := if k >= 4 then Answer else Load(k + 1)))
  }

  function DoAnswer(s: State): State {
    var pending := s.worker.pendingFlush;
    if pending.Some? && s.worker.processed >= pending.value.target then SendAnswer(s, pending.value.id)
    else Goto(s, Check)
  }

  function SendAnswer(s: State, id: nat): State {
    s.(io := s.io.(responses := s.io.responses[id := s.worker.snapshot]),
       worker := s.worker.(phase := Check, pendingFlush := None))
  }

  function DoCheck(s: State): State {
    var pending := s.worker.pendingShutdown;
    Goto(s, if pending.Some? && s.worker.processed >= pending.value then Finish else PollShutdown)
  }

  function DoFinish(s: State, succeeds: bool): State {
    s.(log := s.log.(exporterShutdowns := s.log.exporterShutdowns + 1),
       worker := s.worker.(phase := StoreError, shutdownFailed := !succeeds))
  }

  // -- the system ---------------------------------------------------------

  /** The last handle can go only when no call borrows it. */
  predicate DropEnabled(s: State) {
    && s.front.connected
    && s.front.inFlight == 0
    && (forall p | p in s.producers :: s.producers[p].DoneAccepted? || s.producers[p].DoneDropped?)
    && (forall f | f in s.flushers :: s.flushers[f].FlushOk? || s.flushers[f].FlushErr?)
    && (forall k | k in s.closers :: s.closers[k].CloseOk? || s.closers[k].CloseErr?)
  }

  predicate Enabled(s: State, step: Step) {
    match step
    case EnqueueStep(call) => EnqueueEnabled(s, call)
    case FlushStep(id) => FlushEnabled(s, id)
    case FlushTimeout(id) => FlushTimeoutEnabled(s, id)
    case CloseStep(id) => CloseEnabled(s, id)
    case CloseTimeout(id) => CloseTimeoutEnabled(s, id)
    case WorkerStep(_) => WorkerEnabled(s)
    case DropHandles => DropEnabled(s)
  }

  function Apply(c: Config, s: State, step: Step): State
    requires Enabled(s, step)
  {
    match step
    case EnqueueStep(call) => Enqueue(c, s, call)
    case FlushStep(id) => Flush(c, s, id)
    case FlushTimeout(id) => MoveFlusher(s, id, FlushErr(s.flushers[id].began))
    case CloseStep(id) => Close(s, id)
    case CloseTimeout(id) => MoveCloser(s, id, CloseErr)
    case WorkerStep(ok) => Work(c, s, ok)
    case DropHandles => s.(front := s.front.(connected := false))
  }

  /** An execution from the initial state: any interleaving of enabled steps. */
  ghost predicate IsRun(c: Config, run: seq<State>, steps: seq<Step>) {
    && |run| == |steps| + 1
    && run[0] == INIT
    && forall i | 0 <= i < |steps| :: Enabled(run[i], steps[i]) && run[i + 1] == Apply(c, run[i], steps[i])
  }
}
