/**
 What the trigger outbox guarantees over every run of evaluators and publishers.
 */
module TriggerGuarantees {

  import opened Wrappers
  import opened TriggerOutbox
  import opened TriggerEvaluation
  import opened TriggerProtocol

  /** Claims, records, winners and invocations only grow; an evaluation keeps its plan and its flags. */
  ghost predicate Advances(s: State, t: State) {
    && Grows(s, t)
    && (forall e | e in s.evaluators :: e in t.evaluators && SamePlan(s.evaluators[e], t.evaluators[e]))
  }

  predicate SamePlan(x: Evaluator, y: Evaluator) {
    x.triggers == y.triggers && x.vcs == y.vcs && x.records == y.records && x.flags <= y.flags
  }

  lemma ClaimAdvances(s: State, e: nat)
    requires e in s.evaluators && s.evaluators[e].index < |s.evaluators[e].records|
    requires forall r | r in s.winners :: r in s.o.claims
    ensures Advances(s, DoClaim(s, e, s.evaluators[e]))
  {
  }

  lemma RecordAdvances(s: State, e: nat, first: bool)
    requires e in s.evaluators && s.evaluators[e].index < |s.evaluators[e].records|
    ensures Advances(s, DoLook(s, e, s.evaluators[e]))
    ensures Advances(s, DoStore(s, e, s.evaluators[e], first))
  {
  }

  lemma EvaluatorAdvances(derive: Derive, s: State, e: nat)
    requires Inv(derive, s) && Enabled(s, Evaluate(e))
    ensures Advances(s, EvaluatorStep(s, e))
  {
    match s.evaluators[e].phase
    case ToClaim => ClaimAdvances(s, e);
    case ToLook => RecordAdvances(s, e, false);
    case ToStore(first) => RecordAdvances(s, e, first);
    case ToClear =>
  }

  lemma PublisherAdvances(s: State, p: nat, now: int)
    requires Enabled(s, Publish(p, now))
    ensures Advances(s, PublisherStep(s, p, now))
  {
  }

  lemma StepAdvances(derive: Derive, s: State, step: Step)
    requires Inv(derive, s) && Enabled(s, step)
    ensures Advances(s, Apply(derive, s, step))
  {
    match step
    case Evaluate(e) => EvaluatorAdvances(derive, s, e);
    case Publish(p, now) => PublisherAdvances(s, p, now);
    case _ => OtherAdvances(derive, s, step);
  }

  lemma OtherAdvances(derive: Derive, s: State, step: Step)
    requires Enabled(s, step) && !step.Evaluate? && !step.Publish?
    ensures Advances(s, Apply(derive, s, step))
  {
  }

  lemma {:induction false} RunAdvances(derive: Derive, run: seq<State>, steps: seq<Step>, i: nat, j: nat)
    requires IsRun(derive, run, steps) && i <= j < |run|
    ensures Advances(run[i], run[j])
    decreases j
  {
    if i < j {
      RunAdvances(derive, run, steps, i, j - 1);
      RunInv(derive, run, steps, j - 1);
      StepAdvances(derive, run[j - 1], steps[j - 1]);
      assert run[j] == Apply(derive, run[j - 1], steps[j - 1]);
      AdvancesTransitive(run[i], run[j - 1], run[j]);
    }
  }

  lemma AdvancesTransitive(s: State, t: State, u: State)
    requires Advances(s, t) && Advances(t, u)
    ensures Advances(s, u)
  {
  }

  // -- no lost firing -----------------------------------------------------

  /** Every run of the plan is claimed and has a record. */
  ghost predicate AllRecorded(s: State, records: seq<Record>) {
    forall r | r in records :: r.run in s.o.claims && r.run in s.o.runs
  }

  lemma EvaluatorRemoves(s: State, e: nat, v: ValidId)
    requires Enabled(s, Evaluate(e)) && v in s.o.valid && v !in EvaluatorStep(s, e).o.valid
    ensures s.evaluators[e].phase.ToClear?
    ensures v in Consumed(s.evaluators[e].triggers, s.evaluators[e].vcs)
  {
  }

  lemma PublisherRemovesNone(s: State, p: nat, now: int)
    requires Enabled(s, Publish(p, now))
    ensures PublisherStep(s, p, now).o.valid == s.o.valid
  {
  }

  lemma OtherRemovesNone(derive: Derive, s: State, step: Step, v: ValidId)
    requires Enabled(s, step) && !step.Evaluate? && !step.Publish? && v in s.o.valid
    ensures v in Apply(derive, s, step).o.valid
  {
  }

  /** Only the clear at the end of a claim sequence removes a valid condition. */
  lemma OnlyClearRemoves(derive: Derive, s: State, step: Step, v: ValidId)
    requires Inv(derive, s) && Enabled(s, step)
    requires v in s.o.valid && v !in Apply(derive, s, step).o.valid
    ensures step.Evaluate? && s.evaluators[step.e].phase.ToClear?
    ensures v in Consumed(s.evaluators[step.e].triggers, s.evaluators[step.e].vcs)
  {
    match step
    case Evaluate(e) => EvaluatorRemoves(s, e, v);
    case Publish(p, now) => PublisherRemovesNone(s, p, now);
    case _ => OtherRemovesNone(derive, s, step, v);
  }

  lemma {:induction false} ConsumedFrom(ts: seq<Trigger>, vcs: seq<ValidCondition>, v: ValidId)
    returns (w: ValidCondition)
    requires v in Consumed(ts, vcs)
    ensures w in vcs && w.id == v
  {
    var n := |ts| - 1;
    if v in ConsumedBy(ts[n], vcs) {
      w :| w in vcs && w.id == v;
    } else {
      w := ConsumedFrom(ts[..n], vcs, v);
    }
  }

  lemma PlanRecorded(derive: Derive, s: State, x: Evaluator, e: nat, c: Candidate)
    requires EvaluatorInv(derive, s, e, x) && AllRecorded(s, x.records) && c in Candidates(x.triggers, x.vcs)
    ensures c.run in s.o.claims && c.run in s.o.runs
  {
    var now :| x.records == PlannedRuns(derive, Candidates(x.triggers, x.vcs), now);
    var k :| 0 <= k < |Candidates(x.triggers, x.vcs)| && Candidates(x.triggers, x.vcs)[k] == c;
    assert x.records[k].run == c.run && x.records[k] in x.records;
  }

  /** Whatever the other evaluators, publishers and crashes do: when a valid condition disappears, it
      does so in the clear of an evaluation, and from then on every run that evaluation planned is
      claimed and recorded. In particular the run of every OR trigger it read that lists the
      condition, and of every AND trigger it read that was satisfied. */
  lemma NoLostFiring(derive: Derive, run: seq<State>, steps: seq<Step>, i: nat, j: nat, v: ValidId)
    returns (x: Evaluator, w: ValidCondition)
    requires IsRun(derive, run, steps) && i < j < |run|
    requires v in run[i].o.valid && v !in run[i + 1].o.valid
    ensures steps[i].Evaluate? && run[i].evaluators[steps[i].e] == x && x.phase.ToClear?
    ensures w in x.vcs && w.id == v && exists t | t in x.triggers :: Consumes(t, x.vcs, w)
    ensures AllRecorded(run[j], x.records)
    ensures forall t | t in x.triggers && t.logic == Or && w.condition in t.conditions ::
              RunId(t.id, multiset{v}) in run[j].o.claims && RunId(t.id, multiset{v}) in run[j].o.runs
    ensures forall t | t in x.triggers && t.logic == And && Satisfied(t, x.vcs) ::
              AndCandidate(t, x.vcs).run in run[j].o.claims && AndCandidate(t, x.vcs).run in run[j].o.runs
  {
    RunInv(derive, run, steps, i);
    OnlyClearRemoves(derive, run[i], steps[i], v);
    var e := steps[i].e;
    x := run[i].evaluators[e];
    assert EvaluatorInv(derive, run[i], e, x);
    w := ConsumedFrom(x.triggers, x.vcs, v);
    ConsumedHasTrigger(x.triggers, x.vcs, w);
    RunAdvances(derive, run, steps, i, j);
    DoneIsRecorded(derive, run[i], e, x);
    EvaluatorKept(derive, run[i], run[j], e, x);
    forall t | t in x.triggers && t.logic == Or && w.condition in t.conditions
      ensures RunId(t.id, multiset{v}) in run[j].o.claims && RunId(t.id, multiset{v}) in run[j].o.runs
    {
      OrIsPlanned(x.triggers, x.vcs, w, t);
      PlanRecorded(derive, run[j], x, e, OrCandidate(t, w));
    }
    forall t | t in x.triggers && t.logic == And && Satisfied(t, x.vcs)
      ensures AndCandidate(t, x.vcs).run in run[j].o.claims && AndCandidate(t, x.vcs).run in run[j].o.runs
    {
      AndIsPlanned(x.triggers, x.vcs, t);
      PlanRecorded(derive, run[j], x, e, AndCandidate(t, x.vcs));
    }
  }

  lemma DoneIsRecorded(derive: Derive, s: State, e: nat, x: Evaluator)
    requires EvaluatorInv(derive, s, e, x) && x.index == |x.records|
    ensures AllRecorded(s, x.records)
  {
    forall r | r in x.records ensures r.run in s.o.claims && r.run in s.o.runs {
      var k :| 0 <= k < |x.records| && x.records[k] == r;
      assert Handled(s, e, x, k);
    }
  }

  // -- at most once -------------------------------------------------------

  /** However often a run is evaluated, recorded, reopened and republished, all its records at all
      times carry the same planned invocation, and nothing else is ever attached to them. */
  lemma OnePlannedInvocation(derive: Derive, run: seq<State>, steps: seq<Step>, i: nat, r: RunId)
    requires IsRun(derive, run, steps) && i < |run| && r in run[i].o.runs
    ensures run[i].o.runs[r].planned == Some(derive(r))
    ensures run[i].o.runs[r].triggered.Some? ==>
              run[i].o.runs[r].triggered.value == derive(r) && derive(r) in run[i].invocations
    ensures run[i].o.runs[r].triggered.Some? <==> run[i].o.runs[r].executedAt.Some?
  {
    RunInv(derive, run, steps, i);
    assert Sound(derive, run[i], run[i].o.runs[r]);
  }

  /** At most one invocation is ever created for a run, under its derived id. */
  lemma AtMostOneInvocation(derive: Derive, run: seq<State>, steps: seq<Step>, i: nat, a: nat, b: nat)
    requires IsRun(derive, run, steps) && i < |run| && a < |run[i].creations| && b < |run[i].creations|
    ensures run[i].creations[a].id == derive(run[i].creations[a].run)
    ensures run[i].creations[a].run == run[i].creations[b].run ==> a == b
  {
    RunInv(derive, run, steps, i);
    assert CreationInv(derive, run[i]);
  }

  /** At most one evaluation, at one position of its batch, ever reports a run as claimed. */
  lemma AtMostOneReport(
    derive: Derive, run: seq<State>, steps: seq<Step>, i: nat, j: nat, e: nat, k: nat, f: nat, m: nat)
    requires IsRun(derive, run, steps) && i <= j < |run|
    requires e in run[i].evaluators && k < |run[i].evaluators[e].flags| && run[i].evaluators[e].flags[k]
    requires f in run[j].evaluators && m < |run[j].evaluators[f].flags| && run[j].evaluators[f].flags[m]
    requires |run[i].evaluators[e].flags| <= |run[i].evaluators[e].records|
    requires |run[j].evaluators[f].flags| <= |run[j].evaluators[f].records|
    requires run[i].evaluators[e].records[k].run == run[j].evaluators[f].records[m].run
    ensures e == f && k == m
  {
    RunInv(derive, run, steps, i);
    RunInv(derive, run, steps, j);
    RunAdvances(derive, run, steps, i, j);
    assert EvaluatorInv(derive, run[i], e, run[i].evaluators[e]);
    assert EvaluatorInv(derive, run[j], f, run[j].evaluators[f]);
    assert Handled(run[i], e, run[i].evaluators[e], k);
    assert Handled(run[j], f, run[j].evaluators[f], m);
  }

  // -- what does not hold -------------------------------------------------

  /** Evaluation `e` is about to store its record of the run. */
  ghost predicate StoresNext(s: State, e: nat, r: RunId) {
    && e in s.evaluators && s.evaluators[e].phase.ToStore?
    && s.evaluators[e].index < |s.evaluators[e].records|
    && s.evaluators[e].records[s.evaluators[e].index].run == r
  }

  ghost predicate Overwrites(s: State, step: Step, r: RunId) { step.Evaluate? && StoresNext(s, step.e, r) }

  lemma PlannedArePending(derive: Derive, s: State, e: nat, k: nat)
    requires Inv(derive, s) && e in s.evaluators && k < |s.evaluators[e].records|
    ensures s.evaluators[e].records[k].IsPending()
  {
    var x := s.evaluators[e];
    assert EvaluatorInv(derive, s, e, x);
    var now :| x.records == PlannedRuns(derive, Candidates(x.triggers, x.vcs), now);
  }

  lemma PublisherNeverReopens(derive: Derive, s: State, p: nat, now: int, r: RunId)
    requires Inv(derive, s) && Enabled(s, Publish(p, now)) && r in s.o.runs && !s.o.runs[r].IsPending()
    ensures var t := PublisherStep(s, p, now); r in t.o.runs && !t.o.runs[r].IsPending()
  {
    assert PublisherInv(derive, s, s.publishers[p]);
  }

  lemma EvaluatorReopens(derive: Derive, s: State, e: nat, r: RunId)
    requires Inv(derive, s) && Enabled(s, Evaluate(e)) && r in s.o.runs && !s.o.runs[r].IsPending()
    ensures var t := EvaluatorStep(s, e);
            r in t.o.runs && (t.o.runs[r].IsPending() <==> Overwrites(s, Evaluate(e), r))
  {
    var x := s.evaluators[e];
    if x.phase.ToStore? { PlannedArePending(derive, s, e, x.index); }
  }

  /** A completed run becomes pending again exactly when an evaluation that made its claim, or saw it
      claimed without a record, stores its own record of it. */
  lemma ReopensExactlyWhen(derive: Derive, run: seq<State>, steps: seq<Step>, i: nat, r: RunId)
    requires IsRun(derive, run, steps) && i < |steps| && r in run[i].o.runs && !run[i].o.runs[r].IsPending()
    ensures r in run[i + 1].o.runs
    ensures run[i + 1].o.runs[r].IsPending() <==> Overwrites(run[i], steps[i], r)
  {
    RunInv(derive, run, steps, i);
    assert run[i + 1] == Apply(derive, run[i], steps[i]);
    match steps[i]
    case Evaluate(e) => EvaluatorReopens(derive, run[i], e, r);
    case Publish(p, now) => PublisherNeverReopens(derive, run[i], p, now, r);
    case _ =>
  }

  ghost predicate IsComplete(s: State, r: RunId) { r in s.o.runs && !s.o.runs[r].IsPending() }

  ghost predicate IsRunFrom(derive: Derive, s: State, run: seq<State>, steps: seq<Step>) {
    && |run| == |steps| + 1
    && run[0] == s
    && forall i | 0 <= i < |steps| :: Enabled(run[i], steps[i]) && run[i + 1] == Apply(derive, run[i], steps[i])
  }

  /** Whatever happens next, the run stays completed. */
  ghost predicate StaysComplete(derive: Derive, s: State, r: RunId) {
    forall run, steps | IsRunFrom(derive, s, run, steps) :: IsComplete(run[|run| - 1], r)
  }

  ghost predicate NoLateStore(s: State, r: RunId) { forall e :: !StoresNext(s, e, r) }

  /** While the run has a record, no evaluation comes to store another one. */
  lemma NoNewLateStore(derive: Derive, s: State, step: Step, r: RunId, e: nat)
    requires Inv(derive, s) && Enabled(s, step) && r in s.o.runs && NoLateStore(s, r)
    ensures !StoresNext(Apply(derive, s, step), e, r)
  {
    assert !StoresNext(s, e, r);
    match step
    case Evaluate(f) => EvaluatorNoLateStore(derive, s, f, r, e);
    case Publish(p, now) => PublisherKeepsPhases(s, p, now);
    case _ => OtherNoLateStore(derive, s, step, r, e);
  }

  lemma EvaluatorNoLateStore(derive: Derive, s: State, f: nat, r: RunId, e: nat)
    requires Inv(derive, s) && Enabled(s, Evaluate(f)) && r in s.o.runs && !StoresNext(s, e, r)
    ensures !StoresNext(EvaluatorStep(s, f), e, r)
  {
    var x := s.evaluators[f];
    match x.phase
    case ToClaim => ClaimNoLateStore(s, f, x, r, e);
    case ToLook =>
    case ToStore(_) =>
    case ToClear =>
  }

  lemma ClaimNoLateStore(s: State, f: nat, x: Evaluator, r: RunId, e: nat)
    requires RecordsClaimed(s.o) && x.index < |x.records| && r in s.o.runs && !StoresNext(s, e, r)
    ensures !StoresNext(DoClaim(s, f, x), e, r)
  {
    assert r in s.o.claims;
  }

  lemma PublisherKeepsPhases(s: State, p: nat, now: int)
    requires Enabled(s, Publish(p, now))
    ensures PublisherStep(s, p, now).evaluators == s.evaluators
  {
  }

  lemma OtherNoLateStore(derive: Derive, s: State, step: Step, r: RunId, e: nat)
    requires Enabled(s, step) && !step.Evaluate? && !step.Publish? && !StoresNext(s, e, r)
    ensures !StoresNext(Apply(derive, s, step), e, r)
  {
  }

  lemma CompleteStep(derive: Derive, s: State, step: Step, r: RunId)
    requires Inv(derive, s) && Enabled(s, step) && IsComplete(s, r) && NoLateStore(s, r)
    ensures var t := Apply(derive, s, step); Inv(derive, t) && IsComplete(t, r) && NoLateStore(t, r)
  {
    StepInv(derive, s, step);
    forall e ensures !StoresNext(Apply(derive, s, step), e, r) { NoNewLateStore(derive, s, step, r, e); }
    match step
    case Evaluate(e) => EvaluatorReopens(derive, s, e, r);
    case Publish(p, now) => PublisherNeverReopens(derive, s, p, now, r);
    case _ =>
  }

  lemma {:induction false} CompleteRun(derive: Derive, s: State, run: seq<State>, steps: seq<Step>, r: RunId, i: nat)
    requires Inv(derive, s) && IsComplete(s, r) && NoLateStore(s, r) && IsRunFrom(derive, s, run, steps) && i < |run|
    ensures Inv(derive, run[i]) && IsComplete(run[i], r) && NoLateStore(run[i], r)
  {
    if i > 0 {
      CompleteRun(derive, s, run, steps, r, i - 1);
      CompleteStep(derive, run[i - 1], steps[i - 1], r);
      assert run[i] == Apply(derive, run[i - 1], steps[i - 1]);
    }
  }

  lemma LateStoreReopens(derive: Derive, s: State, r: RunId, e: nat)
    requires Inv(derive, s) && IsComplete(s, r) && StoresNext(s, e, r)
    ensures !StaysComplete(derive, s, r)
  {
    EvaluatorReopens(derive, s, e, r);
    var t := Apply(derive, s, Evaluate(e));
    var run, steps := [s, t], [Evaluate(e)];
    assert IsRunFrom(derive, s, run, steps);
    assert run[|run| - 1] == t && !IsComplete(t, r);
  }

  /** In every reachable state, a completed run stays completed in every continuation if and only if no
      evaluation is about to store its record of it. */
  lemma StaysCompleteIff(derive: Derive, run: seq<State>, steps: seq<Step>, i: nat, r: RunId)
    requires IsRun(derive, run, steps) && i < |run| && IsComplete(run[i], r)
    ensures StaysComplete(derive, run[i], r) <==> NoLateStore(run[i], r)
  {
    RunInv(derive, run, steps, i);
    var s := run[i];
    if NoLateStore(s, r) {
      forall more, next | IsRunFrom(derive, s, more, next) ensures IsComplete(more[|more| - 1], r) {
        CompleteRun(derive, s, more, next, r, |more| - 1);
      }
    } else {
      var e :| StoresNext(s, e, r);
      LateStoreReopens(derive, s, r, e);
    }
  }

  lemma Extend(derive: Derive, run: seq<State>, steps: seq<Step>, step: Step)
    requires IsRun(derive, run, steps) && Enabled(run[|run| - 1], step)
    ensures IsRun(derive, run + [Apply(derive, run[|run| - 1], step)], steps + [step])
  {
  }

  const VC := ValidCondition(0, 0)
  const TRIGGER := Trigger(0, 0, [0], Or, None)
  const RUN := RunId(0, multiset{0})

  function Planned(derive: Derive): Record { PlannedRun(derive, OrCandidate(TRIGGER, VC), 0) }

  function Completed(derive: Derive): Record {
    Planned(derive).(triggered := Some(derive(RUN)), executedAt := Some(0))
  }

  function At(derive: Derive, phase: Phase): Evaluator { Evaluator([TRIGGER], [VC], [Planned(derive)], phase, 0, []) }

  lemma PlanOfExample(derive: Derive)
    ensures PlannedRuns(derive, Candidates([TRIGGER], [VC]), 0) == [Planned(derive)]
  {
    assert [0][..0] == [] && [VC][..0] == [] && [TRIGGER][..0] == [];
    assert OfCondition([VC], 0) == OfCondition([], 0) + [VC] == [VC];
    assert OrCandidates(TRIGGER, [0], [VC]) == OrCandidates(TRIGGER, [], [VC]) + OrEach(TRIGGER, [VC]);
    assert OrEach(TRIGGER, [VC]) == [OrCandidate(TRIGGER, VC)];
    assert Candidates([TRIGGER], [VC]) == Candidates([], [VC]) + CandidatesOf(TRIGGER, [VC]);
  }

  const PENDING := Outbox({}, map[], map[0 := VC])

  lemma Arrived(derive: Derive) returns (run: seq<State>, steps: seq<Step>)
    ensures IsRun(derive, run, steps) && run[|run| - 1] == INIT.(o := PENDING)
  {
    run, steps := [INIT], [];
    Extend(derive, run, steps, Arrive(VC));
    run, steps := run + [Apply(derive, run[|run| - 1], Arrive(VC))], steps + [Arrive(VC)];
  }

  lemma Begun(derive: Derive, s: State, e: nat)
    requires s.o == PENDING && e !in s.evaluators
    ensures Enabled(s, Begin(e, [TRIGGER], [VC], 0))
    ensures Apply(derive, s, Begin(e, [TRIGGER], [VC], 0)) == PutEvaluator(s, e, At(derive, ToClaim))
  {
    PlanOfExample(derive);
  }

  lemma TwoBegan(derive: Derive) returns (run: seq<State>, steps: seq<Step>)
    ensures IsRun(derive, run, steps)
    ensures run[|run| - 1] == INIT.(o := PENDING, evaluators := map[0 := At(derive, ToClaim), 1 := At(derive, ToClaim)])
  {
    run, steps := Arrived(derive);
    var s, first := run[|run| - 1], Begin(0, [TRIGGER], [VC], 0);
    Begun(derive, s, 0);
    Extend(derive, run, steps, first);
    run, steps := run + [Apply(derive, s, first)], steps + [first];
    var t, second := run[|run| - 1], Begin(1, [TRIGGER], [VC], 0);
    Begun(derive, t, 1);
    Extend(derive, run, steps, second);
    run, steps := run + [Apply(derive, t, second)], steps + [second];
  }

  /** Two evaluators read the same condition; the first makes the claim and stalls. */
  lemma StalledClaim(derive: Derive) returns (run: seq<State>, steps: seq<Step>)
    ensures IsRun(derive, run, steps)
    ensures run[|run| - 1] == State(
              Outbox({RUN}, map[], map[0 := VC]), map[0 := At(derive, ToStore(true)), 1 := At(derive, ToClaim)],
              map[], {}, map[RUN := Winner(0, 0)], [])
  {
    run, steps := TwoBegan(derive);
    Extend(derive, run, steps, Evaluate(0));
    run, steps := run + [Apply(derive, run[|run| - 1], Evaluate(0))], steps + [Evaluate(0)];
  }

  /** The second evaluator finds the claim taken and no record, and records the run. */
  lemma SecondRecords(derive: Derive) returns (run: seq<State>, steps: seq<Step>)
    ensures IsRun(derive, run, steps)
    ensures run[|run| - 1] == State(
              Outbox({RUN}, map[RUN := Planned(derive)], map[0 := VC]),
              map[0 := At(derive, ToStore(true)), 1 := NextRecord(At(derive, ToStore(false)), false)],
              map[], {}, map[RUN := Winner(0, 0)], [])
  {
    run, steps := StalledClaim(derive);
    var s := run[|run| - 1];
    Extend(derive, run, steps, Evaluate(1));
    run, steps := run + [Apply(derive, s, Evaluate(1))], steps + [Evaluate(1)];
    assert run[|run| - 1] == PutEvaluator(s, 1, At(derive, ToLook));
    Extend(derive, run, steps, Evaluate(1));
    run, steps := run + [Apply(derive, run[|run| - 1], Evaluate(1))], steps + [Evaluate(1)];
    assert run[|run| - 1] == PutEvaluator(s, 1, At(derive, ToStore(false)));
    Extend(derive, run, steps, Evaluate(1));
    run, steps := run + [Apply(derive, run[|run| - 1], Evaluate(1))], steps + [Evaluate(1)];
  }

  /** A publisher submits the run and completes its record. */
  lemma PublisherCompletes(derive: Derive) returns (run: seq<State>, steps: seq<Step>)
    ensures IsRun(derive, run, steps)
    ensures var s := run[|run| - 1];
            && s.o.runs == map[RUN := Completed(derive)]
            && 0 in s.evaluators && s.evaluators[0] == At(derive, ToStore(true))
  {
    run, steps := SecondRecords(derive);
    var s := run[|run| - 1];
    Extend(derive, run, steps, Pick(0, RUN));
    run, steps := run + [Apply(derive, s, Pick(0, RUN))], steps + [Pick(0, RUN)];
    assert run[|run| - 1] == PutPublisher(s, 0, Submitting(Planned(derive)));
    Extend(derive, run, steps, Publish(0, 0));
    run, steps := run + [Apply(derive, run[|run| - 1], Publish(0, 0))], steps + [Publish(0, 0)];
    var t := run[|run| - 1];
    assert t.publishers[0] == Completing(RUN, derive(RUN)) && t.o == s.o && t.evaluators == s.evaluators;
    Extend(derive, run, steps, Publish(0, 0));
    run, steps := run + [Apply(derive, t, Publish(0, 0))], steps + [Publish(0, 0)];
    assert run[|run| - 1] == PutPublisher(t, 0, Storing(Completed(derive)));
    Extend(derive, run, steps, Publish(0, 0));
    run, steps := run + [Apply(derive, run[|run| - 1], Publish(0, 0))], steps + [Publish(0, 0)];
  }

  /** A published and completed run can become pending again: the evaluator that made the claim is
      slow, another one records the run, a publisher completes it, and the first evaluator then
      stores its own record over the completed one. Only the derived invocation id keeps the second
      publication from creating a second invocation. */
  lemma CompletedRunCanReopen(derive: Derive) returns (run: seq<State>, steps: seq<Step>, r: RunId)
    ensures IsRun(derive, run, steps) && |run| >= 2
    ensures var before, after := run[|run| - 2], run[|run| - 1];
            && r in before.o.runs && before.o.runs[r].triggered.Some?
            && r in after.o.runs && after.o.runs[r].IsPending()
  {
    r := RUN;
    run, steps := PublisherCompletes(derive);
    Extend(derive, run, steps, Evaluate(0));
    run, steps := run + [Apply(derive, run[|run| - 1], Evaluate(0))], steps + [Evaluate(0)];
  }
}
