/**
 Concurrent evaluators and publishers over one non-transactional trigger store:
 every store call is one step, every process can crash between two of its steps.
 `derive` is the run-derived invocation id, an arbitrary function of the run id.
 */
module TriggerProtocol {

  import opened Wrappers
  import opened TriggerOutbox
  import opened TriggerEvaluation

  /** Where an evaluation stands in the ordered claim sequence. */
  datatype Phase =
    | ToClaim                 // about to call `claim_trigger_run` for the current record
    | ToLook                  // claim was taken before: about to call `get_trigger_run`
    | ToStore(first: bool)    // about to call `store_trigger_run`
    | ToClear                 // every record done: about to call `clear_valid_conditions`
    | Finished
    | Crashed

  datatype Evaluator = Evaluator(
    triggers: seq<Trigger>,          // the definitions its index reads returned
    vcs: seq<ValidCondition>,        // the pending valid conditions it read
    records: seq<Record>,
    phase: Phase,
    index: nat,
    flags: seq<bool>)

  /** Where a publisher stands with one pending record. */
  datatype Publisher =
    | Submitting(record: Record)
    | Completing(run: RunId, id: InvocationId)      // submitted; about to read the record
    | Storing(record: Record)                       // about to write it back with its invocation
    | Done
    | Died

  datatype Winner = Winner(evaluator: nat, index: nat)

  datatype Creation = Creation(run: RunId, id: InvocationId)

  datatype State = State(
    o: Outbox,
    evaluators: map<nat, Evaluator>,
    publishers: map<nat, Publisher>,
    invocations: set<InvocationId>,
    // History variables.
    winners: map<RunId, Winner>,     // who made each claim
    creations: seq<Creation>)        // invocations created, in order

  const INIT := State(Outbox({}, map[], map[]), map[], map[], {}, map[], [])

  datatype Step =
    | Arrive(vc: ValidCondition)
    | Begin(e: nat, triggers: seq<Trigger>, vcs: seq<ValidCondition>, now: int)
    | Evaluate(e: nat)
    | CrashEvaluator(e: nat)
    | Pick(p: nat, run: RunId)
    | Publish(p: nat, now: int)
    | CrashPublisher(p: nat)

  type Derive = RunId -> InvocationId

  ghost predicate Enabled(s: State, step: Step) {
    match step
    case Arrive(vc) => true
    case Begin(e, _, vcs, _) =>
      e !in s.evaluators && forall v :: v in vcs <==> v.id in s.o.valid && s.o.valid[v.id] == v
    case Evaluate(e) => e in s.evaluators && !s.evaluators[e].phase.Finished? && !s.evaluators[e].phase.Crashed?
                        && (!s.evaluators[e].phase.ToClear? ==> s.evaluators[e].index < |s.evaluators[e].records|)
    case CrashEvaluator(e) => e in s.evaluators && !s.evaluators[e].phase.Finished?
    case Pick(p, run) => p !in s.publishers && run in s.o.runs && s.o.runs[run].IsPending()
    case Publish(p, _) => p in s.publishers && !s.publishers[p].Done? && !s.publishers[p].Died?
                          && (s.publishers[p].Submitting? ==> s.publishers[p].record.planned.Some?)
    case CrashPublisher(p) => p in s.publishers
  }

  function PutEvaluator(s: State, e: nat, x: Evaluator): State {
    s.(evaluators := s.evaluators[e := x])
  }

  function PutPublisher(s: State, p: nat, x: Publisher): State {
    s.(publishers := s.publishers[p := x])
  }

  function StartAt(index: nat, records: seq<Record>): Phase {
    if index < |records| then ToClaim else ToClear
  }

  /** The record at `index` is claimed and stored: push its flag and go on. */
  function NextRecord(x: Evaluator, first: bool): Evaluator {
    x.(index := x.index + 1, flags := x.flags + [first], phase := StartAt(x.index + 1, x.records))
  }

  function BeginEvaluation(
    derive: Derive, s: State, e: nat, ts: seq<Trigger>, vcs: seq<ValidCondition>, now: int): State
  {
    var records := PlannedRuns(derive, Candidates(ts, vcs), now);
    PutEvaluator(s, e, Evaluator(ts, vcs, records, StartAt(0, records), 0, []))
  }

  function DoClaim(s: State, e: nat, x: Evaluator): State
    requires x.index < |x.records|
  {
    var run := x.records[x.index].run;
    if run in s.o.claims then PutEvaluator(s, e, x.(phase := ToLook)) else WinClaim(s, e, x, run)
  }

  function WinClaim(s: State, e: nat, x: Evaluator, run: RunId): State {
    PutEvaluator(s, e, x.(phase := ToStore(true))).(
      o := Claim(s.o, run), winners := s.winners[run := Winner(e, x.index)])
  }

  function DoLook(s: State, e: nat, x: Evaluator): State
    requires x.index < |x.records|
  {
    PutEvaluator(s, e, if x.records[x.index].run in s.o.runs then NextRecord(x, false) else x.(phase := ToStore(false)))
  }

  function Write(o: Outbox, record: Record): Outbox {
    o.(runs := o.runs[record.run := record])
  }

  function DoStore(s: State, e: nat, x: Evaluator, first: bool): State
    requires x.index < |x.records|
  {
    PutEvaluator(s, e, NextRecord(x, first)).(o := Write(s.o, x.records[x.index]))
  }

  function DoClear(s: State, e: nat, x: Evaluator): State {
    var gone := Consumed(x.triggers, x.vcs);
    PutEvaluator(s, e, x.(phase := Finished)).(
      o := s.o.(valid := map v | v in s.o.valid && v !in gone :: s.o.valid[v]))
  }

  /** `submit` creates the invocation or recognises a replay. */
  function DoSubmit(s: State, p: nat, record: Record): State
    requires record.planned.Some?
  {
    var id := record.planned.value;
    var t := PutPublisher(s, p, Completing(record.run, id));
    if id in s.invocations then t
    else t.(invocations := s.invocations + {id}, creations := s.creations + [Creation(record.run, id)])
  }

  function DoRead(s: State, p: nat, run: RunId, id: InvocationId, now: int): State {
    PutPublisher(s, p,
      if run in s.o.runs then Storing(s.o.runs[run].(triggered := Some(id), executedAt := Some(now))) else Done)
  }

  function DoWrite(s: State, p: nat, record: Record): State {
    PutPublisher(s, p, Done).(o := Write(s.o, record))
  }

  ghost function Apply(derive: Derive, s: State, step: Step): State
    requires Enabled(s, step)
  {
    match step
    case Arrive(vc) => s.(o := s.o.(valid := s.o.valid[vc.id := vc]))
    case Begin(e, ts, vcs, now) => BeginEvaluation(derive, s, e, ts, vcs, now)
    case Evaluate(e) => EvaluatorStep(s, e)
    case CrashEvaluator(e) => PutEvaluator(s, e, s.evaluators[e].(phase := Crashed))
    case Pick(p, run) => PutPublisher(s, p, Submitting(s.o.runs[run]))
    case Publish(p, now) => PublisherStep(s, p, now)
    case CrashPublisher(p) => PutPublisher(s, p, Died)
  }

  ghost function EvaluatorStep(s: State, e: nat): State
    requires Enabled(s, Evaluate(e))
  {
    var x := s.evaluators[e];
    match x.phase
    case ToClaim => DoClaim(s, e, x)
    case ToLook => DoLook(s, e, x)
    case ToStore(first) => DoStore(s, e, x, first)
    case ToClear => DoClear(s, e, x)
  }

  ghost function PublisherStep(s: State, p: nat, now: int): State
    requires Enabled(s, Publish(p, now))
  {
    match s.publishers[p]
    case Submitting(record) => DoSubmit(s, p, record)
    case Completing(run, id) => DoRead(s, p, run, id, now)
    case Storing(record) => DoWrite(s, p, record)
  }

  ghost predicate IsRun(derive: Derive, run: seq<State>, steps: seq<Step>) {
    && |run| == |steps| + 1
    && run[0] == INIT
    && forall i | 0 <= i < |steps| :: Enabled(run[i], steps[i]) && run[i + 1] == Apply(derive, run[i], steps[i])
  }

  // -- the invariant ------------------------------------------------------

  /** A record of its own run, planned under the derived id and attached to nothing else. */
  predicate Sound(derive: Derive, s: State, r: Record) {
    && r.planned == Some(derive(r.run))
    && (r.triggered.Some? ==> r.triggered == r.planned && derive(r.run) in s.invocations)
    && (r.triggered.Some? <==> r.executedAt.Some?)
  }

  ghost predicate BoxInv(derive: Derive, s: State) {
    && RecordsClaimed(s.o)
    && (forall r | r in s.o.runs :: s.o.runs[r].run == r && Sound(derive, s, s.o.runs[r]))
    && (forall v | v in s.o.valid :: s.o.valid[v].id == v)
    && (forall r | r in s.winners :: r in s.o.claims)
  }

  ghost predicate Handled(s: State, e: nat, x: Evaluator, k: nat)
    requires k < |x.records| && k < |x.flags|
  {
    var run := x.records[k].run;
    && run in s.o.claims && run in s.o.runs
    && (x.flags[k] ==> run in s.winners && s.winners[run] == Winner(e, k))
  }

  ghost predicate EvaluatorInv(derive: Derive, s: State, e: nat, x: Evaluator) {
    && (exists now :: x.records == PlannedRuns(derive, Candidates(x.triggers, x.vcs), now))
    && (forall r | r in x.records :: Sound(derive, s, r))
    && x.index == |x.flags| <= |x.records|
    && (forall k | 0 <= k < x.index :: Handled(s, e, x, k))
    && (x.phase.ToClaim? ==> x.index < |x.records|)
    && (x.phase.ToLook? ==> x.index < |x.records| && x.records[x.index].run in s.o.claims)
    && (x.phase.ToStore? ==> x.index < |x.records| && x.records[x.index].run in s.o.claims)
    && (x.phase == ToStore(true) ==>
          x.records[x.index].run in s.winners && s.winners[x.records[x.index].run] == Winner(e, x.index))
    && (x.phase.ToClear? || x.phase.Finished? ==> x.index == |x.records|)
    && (forall v, w | v in x.vcs && w in x.vcs && v.id == w.id :: v == w)
  }

  ghost predicate PublisherInv(derive: Derive, s: State, x: Publisher) {
    && (x.Submitting? ==> Sound(derive, s, x.record))
    && (x.Completing? ==> x.id == derive(x.run) && x.id in s.invocations)
    && (x.Storing? ==> x.record.run in s.o.runs && x.record.triggered.Some? && Sound(derive, s, x.record))
  }

  ghost predicate CreationInv(derive: Derive, s: State) {
    && (forall k | 0 <= k < |s.creations| ::
          s.creations[k].id == derive(s.creations[k].run) && s.creations[k].id in s.invocations)
    && (forall j, k | 0 <= j < k < |s.creations| :: s.creations[j].id != s.creations[k].id)
  }

  ghost predicate Inv(derive: Derive, s: State) {
    && BoxInv(derive, s)
    && (forall e | e in s.evaluators :: EvaluatorInv(derive, s, e, s.evaluators[e]))
    && (forall p | p in s.publishers :: PublisherInv(derive, s, s.publishers[p]))
    && CreationInv(derive, s)
  }

  /** What every step keeps of the store: claims, records, winners and invocations only grow, and
      a run's planned invocation never changes. */
  ghost predicate Grows(s: State, t: State) {
    && s.o.claims <= t.o.claims
    && s.o.runs.Keys <= t.o.runs.Keys
    && s.invocations <= t.invocations
    && (forall r | r in s.winners :: r in t.winners && t.winners[r] == s.winners[r])
  }

  lemma EvaluatorKept(derive: Derive, s: State, t: State, e: nat, x: Evaluator)
    requires EvaluatorInv(derive, s, e, x) && Grows(s, t)
    ensures EvaluatorInv(derive, t, e, x)
  {
    forall k | 0 <= k < x.index ensures Handled(t, e, x, k) { assert Handled(s, e, x, k); }
    forall r | r in x.records ensures Sound(derive, t, r) { assert Sound(derive, s, r); }
  }

  lemma PublisherKept(derive: Derive, s: State, t: State, x: Publisher)
    requires PublisherInv(derive, s, x) && Grows(s, t)
    ensures PublisherInv(derive, t, x)
  {
  }

  /** A step that keeps the box and the creations good and moves at most one process is good. */
  lemma EvaluatorMoves(derive: Derive, s: State, t: State, e: nat)
    requires Inv(derive, s) && Grows(s, t) && BoxInv(derive, t) && CreationInv(derive, t)
    requires t.publishers == s.publishers
    requires e in t.evaluators && t.evaluators == s.evaluators[e := t.evaluators[e]]
    requires EvaluatorInv(derive, t, e, t.evaluators[e])
    ensures Inv(derive, t)
  {
    forall f | f in t.evaluators ensures EvaluatorInv(derive, t, f, t.evaluators[f]) {
      if f != e { EvaluatorKept(derive, s, t, f, s.evaluators[f]); }
    }
    forall p | p in t.publishers ensures PublisherInv(derive, t, t.publishers[p]) {
      PublisherKept(derive, s, t, s.publishers[p]);
    }
  }

  lemma PublisherMoves(derive: Derive, s: State, t: State, p: nat)
    requires Inv(derive, s) && Grows(s, t) && BoxInv(derive, t) && CreationInv(derive, t)
    requires t.evaluators == s.evaluators
    requires p in t.publishers && t.publishers == s.publishers[p := t.publishers[p]]
    requires PublisherInv(derive, t, t.publishers[p])
    ensures Inv(derive, t)
  {
    forall f | f in t.evaluators ensures EvaluatorInv(derive, t, f, t.evaluators[f]) {
      EvaluatorKept(derive, s, t, f, s.evaluators[f]);
    }
    forall q | q in t.publishers ensures PublisherInv(derive, t, t.publishers[q]) {
      if q != p { PublisherKept(derive, s, t, s.publishers[q]); }
    }
  }

  lemma BoxKept(derive: Derive, s: State, t: State)
    requires BoxInv(derive, s) && t.o == s.o && t.winners == s.winners && s.invocations <= t.invocations
    ensures BoxInv(derive, t)
  {
    forall r | r in t.o.runs ensures Sound(derive, t, t.o.runs[r]) { assert Sound(derive, s, s.o.runs[r]); }
  }

  /** The record at the evaluator's index is now claimed and stored. */
  lemma NextRecordInv(derive: Derive, t: State, e: nat, x: Evaluator, first: bool)
    requires EvaluatorInv(derive, t, e, x) && x.index < |x.records|
    requires var run := x.records[x.index].run;
             && run in t.o.claims && run in t.o.runs
             && (first ==> run in t.winners && t.winners[run] == Winner(e, x.index))
    ensures EvaluatorInv(derive, t, e, NextRecord(x, first))
  {
    var y := NextRecord(x, first);
    forall k | 0 <= k < y.index ensures Handled(t, e, y, k) {
      if k < x.index { assert Handled(t, e, x, k); }
    }
  }

  lemma BeginInv(derive: Derive, s: State, e: nat, ts: seq<Trigger>, vcs: seq<ValidCondition>, now: int)
    requires Inv(derive, s) && Enabled(s, Begin(e, ts, vcs, now))
    ensures Inv(derive, BeginEvaluation(derive, s, e, ts, vcs, now))
  {
    var t := BeginEvaluation(derive, s, e, ts, vcs, now);
    BoxKept(derive, s, t);
    assert t.evaluators[e].records == PlannedRuns(derive, Candidates(ts, vcs), now);
    EvaluatorMoves(derive, s, t, e);
  }

  /** Moving to another phase of the same record, or stopping. */
  lemma PhaseInv(derive: Derive, t: State, e: nat, x: Evaluator, phase: Phase)
    requires EvaluatorInv(derive, t, e, x)
    requires match phase
             case ToLook => x.index < |x.records| && x.records[x.index].run in t.o.claims
             case ToStore(first) =>
               && x.index < |x.records| && x.records[x.index].run in t.o.claims
               && (first ==>
                     && x.records[x.index].run in t.winners
                     && t.winners[x.records[x.index].run] == Winner(e, x.index))
             case Finished => x.index == |x.records|
             case Crashed => true
             case _ => false
    ensures EvaluatorInv(derive, t, e, x.(phase := phase))
  {
    var y := x.(phase := phase);
    forall k | 0 <= k < y.index ensures Handled(t, e, y, k) { assert Handled(t, e, x, k); }
  }

  /** A step that only moves one evaluator. */
  lemma PutInv(derive: Derive, s: State, e: nat, y: Evaluator)
    requires Inv(derive, s) && EvaluatorInv(derive, s, e, y)
    ensures Inv(derive, PutEvaluator(s, e, y))
  {
    var t := PutEvaluator(s, e, y);
    BoxKept(derive, s, t);
    EvaluatorKept(derive, s, t, e, y);
    EvaluatorMoves(derive, s, t, e);
  }

  lemma WinInv(derive: Derive, s: State, e: nat)
    requires Inv(derive, s) && e in s.evaluators && s.evaluators[e].phase.ToClaim?
    requires s.evaluators[e].index < |s.evaluators[e].records|
    requires s.evaluators[e].records[s.evaluators[e].index].run !in s.o.claims
    ensures Inv(derive, WinClaim(s, e, s.evaluators[e], s.evaluators[e].records[s.evaluators[e].index].run))
  {
    var x := s.evaluators[e];
    assert EvaluatorInv(derive, s, e, x);
    var t := WinClaim(s, e, x, x.records[x.index].run);
    assert Grows(s, t);
    assert BoxInv(derive, t) by {
      forall r | r in t.o.runs ensures Sound(derive, t, t.o.runs[r]) { assert Sound(derive, s, s.o.runs[r]); }
    }
    EvaluatorKept(derive, s, t, e, x);
    PhaseInv(derive, t, e, x, ToStore(true));
    EvaluatorMoves(derive, s, t, e);
  }

  lemma ClaimInv(derive: Derive, s: State, e: nat)
    requires Inv(derive, s) && e in s.evaluators && s.evaluators[e].phase.ToClaim?
    requires s.evaluators[e].index < |s.evaluators[e].records|
    ensures Inv(derive, DoClaim(s, e, s.evaluators[e]))
  {
    var x := s.evaluators[e];
    assert EvaluatorInv(derive, s, e, x);
    if x.records[x.index].run in s.o.claims {
      PhaseInv(derive, s, e, x, ToLook);
      PutInv(derive, s, e, x.(phase := ToLook));
    } else {
      WinInv(derive, s, e);
    }
  }

  lemma LookInv(derive: Derive, s: State, e: nat)
    requires Inv(derive, s) && e in s.evaluators && s.evaluators[e].phase.ToLook?
    requires s.evaluators[e].index < |s.evaluators[e].records|
    ensures Inv(derive, DoLook(s, e, s.evaluators[e]))
  {
    var x := s.evaluators[e];
    assert EvaluatorInv(derive, s, e, x);
    if x.records[x.index].run in s.o.runs {
      NextRecordInv(derive, s, e, x, false);
      PutInv(derive, s, e, NextRecord(x, false));
    } else {
      PhaseInv(derive, s, e, x, ToStore(false));
      PutInv(derive, s, e, x.(phase := ToStore(false)));
    }
  }

  lemma WriteBox(derive: Derive, s: State, t: State, record: Record)
    requires BoxInv(derive, s) && Sound(derive, s, record) && record.run in s.o.claims
    requires t.o == Write(s.o, record) && t.winners == s.winners && t.invocations == s.invocations
    ensures BoxInv(derive, t)
  {
    forall r | r in t.o.runs ensures t.o.runs[r].run == r && Sound(derive, t, t.o.runs[r]) {
      if r != record.run { assert Sound(derive, s, s.o.runs[r]); }
    }
  }

  lemma StoreInv(derive: Derive, s: State, e: nat)
    requires Inv(derive, s) && e in s.evaluators && s.evaluators[e].phase.ToStore?
    requires s.evaluators[e].index < |s.evaluators[e].records|
    ensures Inv(derive, DoStore(s, e, s.evaluators[e], s.evaluators[e].phase.first))
  {
    var x := s.evaluators[e];
    assert EvaluatorInv(derive, s, e, x);
    var t := DoStore(s, e, x, x.phase.first);
    WriteBox(derive, s, t, x.records[x.index]);
    EvaluatorKept(derive, s, t, e, x);
    NextRecordInv(derive, t, e, x, x.phase.first);
    EvaluatorMoves(derive, s, t, e);
  }

  lemma ClearInv(derive: Derive, s: State, e: nat)
    requires Inv(derive, s) && e in s.evaluators && s.evaluators[e].phase.ToClear?
    ensures Inv(derive, DoClear(s, e, s.evaluators[e]))
  {
    var x := s.evaluators[e];
    assert EvaluatorInv(derive, s, e, x);
    var t := DoClear(s, e, x);
    assert BoxInv(derive, t) by {
      forall r | r in t.o.runs ensures Sound(derive, t, t.o.runs[r]) { assert Sound(derive, s, s.o.runs[r]); }
    }
    PhaseInv(derive, s, e, x, Finished);
    EvaluatorKept(derive, s, t, e, x.(phase := Finished));
    EvaluatorMoves(derive, s, t, e);
  }

  lemma CrashInv(derive: Derive, s: State, e: nat)
    requires Inv(derive, s) && e in s.evaluators
    ensures Inv(derive, PutEvaluator(s, e, s.evaluators[e].(phase := Crashed)))
  {
    PhaseInv(derive, s, e, s.evaluators[e], Crashed);
    PutInv(derive, s, e, s.evaluators[e].(phase := Crashed));
  }

  lemma SubmitInv(derive: Derive, s: State, p: nat)
    requires Inv(derive, s) && p in s.publishers && s.publishers[p].Submitting?
    ensures s.publishers[p].record.planned.Some?
    ensures Inv(derive, DoSubmit(s, p, s.publishers[p].record))
  {
    assert PublisherInv(derive, s, s.publishers[p]);
    var t := DoSubmit(s, p, s.publishers[p].record);
    BoxKept(derive, s, t);
    PublisherMoves(derive, s, t, p);
  }

  lemma ReadInv(derive: Derive, s: State, p: nat, now: int)
    requires Inv(derive, s) && p in s.publishers && s.publishers[p].Completing?
    ensures Inv(derive, DoRead(s, p, s.publishers[p].run, s.publishers[p].id, now))
  {
    var x := s.publishers[p];
    assert PublisherInv(derive, s, x);
    var t := DoRead(s, p, x.run, x.id, now);
    BoxKept(derive, s, t);
    PublisherMoves(derive, s, t, p);
  }

  lemma WriteInv(derive: Derive, s: State, p: nat)
    requires Inv(derive, s) && p in s.publishers && s.publishers[p].Storing?
    ensures Inv(derive, DoWrite(s, p, s.publishers[p].record))
  {
    var x := s.publishers[p];
    assert PublisherInv(derive, s, x);
    var t := DoWrite(s, p, x.record);
    WriteBox(derive, s, t, x.record);
    PublisherMoves(derive, s, t, p);
  }

  lemma ArriveInv(derive: Derive, s: State, vc: ValidCondition)
    requires Inv(derive, s)
    ensures Inv(derive, s.(o := s.o.(valid := s.o.valid[vc.id := vc])))
  {
    var t := s.(o := s.o.(valid := s.o.valid[vc.id := vc]));
    assert BoxInv(derive, t) by {
      forall r | r in t.o.runs ensures Sound(derive, t, t.o.runs[r]) { assert Sound(derive, s, s.o.runs[r]); }
    }
    forall f | f in t.evaluators ensures EvaluatorInv(derive, t, f, t.evaluators[f]) {
      EvaluatorKept(derive, s, t, f, s.evaluators[f]);
    }
    forall q | q in t.publishers ensures PublisherInv(derive, t, t.publishers[q]) {
      PublisherKept(derive, s, t, s.publishers[q]);
    }
  }

  lemma IdleInv(derive: Derive, s: State, p: nat, x: Publisher)
    requires Inv(derive, s) && PublisherInv(derive, s, x)
    ensures Inv(derive, PutPublisher(s, p, x))
  {
    var t := PutPublisher(s, p, x);
    BoxKept(derive, s, t);
    PublisherKept(derive, s, t, x);
    PublisherMoves(derive, s, t, p);
  }

  lemma StepInv(derive: Derive, s: State, step: Step)
    requires Inv(derive, s) && Enabled(s, step)
    ensures Inv(derive, Apply(derive, s, step))
  {
    match step
    case Arrive(vc) => ArriveInv(derive, s, vc);
    case Begin(e, ts, vcs, now) => BeginInv(derive, s, e, ts, vcs, now);
    case Evaluate(e) =>
      match s.evaluators[e].phase {
        case ToClaim => ClaimInv(derive, s, e);
        case ToLook => LookInv(derive, s, e);
        case ToStore(_) => StoreInv(derive, s, e);
        case ToClear => ClearInv(derive, s, e);
      }
    case CrashEvaluator(e) => CrashInv(derive, s, e);
    case Pick(p, run) => IdleInv(derive, s, p, Submitting(s.o.runs[run]));
    case Publish(p, now) =>
      match s.publishers[p] {
        case Submitting(_) => SubmitInv(derive, s, p);
        case Completing(_, _) => ReadInv(derive, s, p, now);
        case Storing(_) => WriteInv(derive, s, p);
      }
    case CrashPublisher(p) => IdleInv(derive, s, p, Died);
  }

  lemma {:induction false} RunInv(derive: Derive, run: seq<State>, steps: seq<Step>, i: nat)
    requires IsRun(derive, run, steps) && i < |run|
    ensures Inv(derive, run[i])
  {
    if i > 0 {
      RunInv(derive, run, steps, i - 1);
      StepInv(derive, run[i - 1], steps[i - 1]);
    }
  }
}
