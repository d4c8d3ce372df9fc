/**
 Cron firing: the due test, the evaluation loop on the in-memory store, and the
 compare-and-swap race of any number of runners with unrelated clocks.
 Times are integers in nanoseconds.
 */
module Cron {

  import opened Wrappers
  import opened TriggerOutbox
  import opened TriggerRegistry

  const SECOND: int := 1_000_000_000
  const GRACE_SECONDS: int := 120
  const MAX_I64: int := 0x7fff_ffff_ffff_ffff

  /** `Duration::num_seconds`: whole seconds, truncated toward zero. */
  function NumSeconds(d: int): int {
    if d >= 0 then d / SECOND else -((-d) / SECOND)
  }

  /** A schedule is known through `find_previous_occurrence(now, inclusive)`; None is its error. */
  type Schedule = int -> Option<int>

  ghost predicate IsSchedule(previous: Schedule) {
    forall now :: previous(now).Some? ==> previous(now).value <= now
  }

  datatype CronCondition = CronCondition(id: ConditionId, schedule: Option<Schedule>, minIntervalSeconds: nat)

  predicate SlotDue(slot: int, now: int, last: Option<int>) {
    if NumSeconds(now - slot) > GRACE_SECONDS then false else last.None? || slot > last.value
  }

  predicate IntervalOk(minIntervalSeconds: nat, now: int, last: Option<int>) {
    last.None? || NumSeconds(now - last.value) >= if minIntervalSeconds > MAX_I64 then MAX_I64 else minIntervalSeconds
  }

  /** The slot this evaluation would fire, given the last execution it read. */
  function SlotToFire(c: CronCondition, now: int, last: Option<int>): Option<int> {
    if c.schedule.None? || !IntervalOk(c.minIntervalSeconds, now, last) then None
    else
      var slot := c.schedule.value(now);
      if slot.Some? && SlotDue(slot.value, now, last) then slot else None
  }

  /** Exactly which slots fire. The grace is counted in whole seconds, so a slot fires until it is
      121 seconds old, although it is documented as at most 120 seconds. */
  lemma SlotDueMeaning(slot: int, now: int, last: Option<int>)
    requires slot <= now
    ensures SlotDue(slot, now, last) <==>
              now - slot < (GRACE_SECONDS + 1) * SECOND && (last.None? || last.value < slot)
  {
    var d := now - slot;
    assert d == SECOND * (d / SECOND) + d % SECOND && 0 <= d % SECOND < SECOND;
    if d / SECOND > GRACE_SECONDS {
      assert d >= SECOND * (GRACE_SECONDS + 1);
    } else {
      assert d < SECOND * (GRACE_SECONDS + 1);
    }
  }

  lemma LateSlotStillFires()
    ensures SlotDue(0, 120 * SECOND + SECOND / 2, None)
  {
  }

  /** What a firing guarantees, whatever the clock: even with a clock behind the last execution. */
  lemma FiringIsSound(c: CronCondition, now: int, last: Option<int>)
    requires c.schedule.Some? && IsSchedule(c.schedule.value)
    requires SlotToFire(c, now, last).Some?
    ensures var slot := SlotToFire(c, now, last).value;
            && slot <= now < slot + (GRACE_SECONDS + 1) * SECOND
            && (last.Some? ==>
                  && last.value < slot
                  && (c.minIntervalSeconds <= MAX_I64 ==> now - last.value >= c.minIntervalSeconds * SECOND))
  {
    var slot := SlotToFire(c, now, last).value;
    assert c.schedule.value(now).value <= now;
    SlotDueMeaning(slot, now, last);
    if last.Some? {
      var d := now - last.value;
      assert d >= 0 && d == SECOND * (d / SECOND) + d % SECOND;
    }
  }

  /** The condition is due at `now`: the latest slot its schedule knows is less than 121 seconds old and,
      after an execution, later than it and the minimum interval away. Times are in nanoseconds; an
      interval beyond the 64-bit range counts as the largest one. */
  predicate DueNow(c: CronCondition, now: int, last: Option<int>) {
    && c.schedule.Some? && c.schedule.value(now).Some?
    && var slot := c.schedule.value(now).value;
    && now - slot < 121_000_000_000
    && (last.Some? ==>
          && last.value < slot
          && now - last.value >=
             (if c.minIntervalSeconds <= 9_223_372_036_854_775_807 then c.minIntervalSeconds
              else 9_223_372_036_854_775_807) * 1_000_000_000)
  }

  /** Exactly when a condition fires, whatever the clock, and which slot. */
  lemma FiresExactlyWhen(c: CronCondition, now: int, last: Option<int>)
    requires c.schedule.Some? ==> IsSchedule(c.schedule.value)
    ensures SlotToFire(c, now, last).Some? <==> DueNow(c, now, last)
    ensures SlotToFire(c, now, last).Some? ==> SlotToFire(c, now, last) == c.schedule.value(now)
  {
    if c.schedule.Some? && c.schedule.value(now).Some? {
      var slot := c.schedule.value(now).value;
      assert slot <= now;
      SlotDueMeaning(slot, now, last);
      if last.Some? && last.value < slot { IntervalMeaning(c.minIntervalSeconds, now, last.value); }
    }
  }

  lemma IntervalMeaning(minIntervalSeconds: nat, now: int, last: int)
    requires last < now
    ensures IntervalOk(minIntervalSeconds, now, Some(last)) <==>
              now - last >= (if minIntervalSeconds <= 9_223_372_036_854_775_807 then minIntervalSeconds
                             else 9_223_372_036_854_775_807) * 1_000_000_000
  {
    var d, m := now - last, if minIntervalSeconds > MAX_I64 then MAX_I64 else minIntervalSeconds;
    WholeSeconds(d, m);
  }

  lemma WholeSeconds(d: nat, m: nat)
    ensures d / 1_000_000_000 >= m <==> d >= m * 1_000_000_000
  {
  }

  // -- the evaluation loop ------------------------------------------------

  function LastOf(executions: map<ConditionId, int>, id: ConditionId): Option<int> {
    if id in executions then Some(executions[id]) else None
  }

  datatype Fired = Fired(condition: ConditionId, timestamp: int, last: Option<int>)

  datatype Passed = Passed(executions: map<ConditionId, int>, fired: seq<Fired>)

  /** One undisturbed pass over the cron conditions at one clock reading. */
  function Pass(executions: map<ConditionId, int>, conditions: seq<CronCondition>, now: int): Passed {
    if conditions == [] then Passed(executions, [])
    else Evaluate(Pass(executions, conditions[..|conditions| - 1], now), conditions[|conditions| - 1], now)
  }

  function Evaluate(p: Passed, c: CronCondition, now: int): Passed {
    var last := LastOf(p.executions, c.id);
    if SlotToFire(c, now, last).Some? then Passed(p.executions[c.id := now], p.fired + [Fired(c.id, now, last)]) else p
  }

  /** Some condition of this id is due, given the execution stored before the pass. */
  ghost predicate ToFire(executions: map<ConditionId, int>, conditions: seq<CronCondition>, now: int, id: ConditionId) {
    exists c | c in conditions ::
      c.id == id && DueNow(c, now, if id in executions then Some(executions[id]) else None)
  }

  ghost predicate HasFired(fired: seq<Fired>, id: ConditionId) {
    exists f | f in fired :: f.condition == id
  }

  ghost predicate OncePerId(fired: seq<Fired>) {
    forall i, j | 0 <= i < j < |fired| :: fired[i].condition != fired[j].condition
  }

  ghost predicate AllSchedules(conditions: seq<CronCondition>) {
    forall c | c in conditions :: c.schedule.Some? ==> IsSchedule(c.schedule.value)
  }

  /** Each id fires once at most, exactly when it is to fire, from the execution stored before; its time
      is then stored, and no other. */
  ghost predicate PassedAs(was: map<ConditionId, int>, conditions: seq<CronCondition>, now: int, p: Passed) {
    && OncePerId(p.fired)
    && (forall f | f in p.fired ::
          f == Fired(f.condition, now, if f.condition in was then Some(was[f.condition]) else None))
    && (forall id :: HasFired(p.fired, id) <==> ToFire(was, conditions, now, id))
    && (forall id :: id in p.executions <==> id in was || HasFired(p.fired, id))
    && (forall id | id in p.executions :: p.executions[id] == if HasFired(p.fired, id) then now else was[id])
  }

  /** A condition that fired at this reading cannot fire again at it. */
  lemma NotAgain(c: CronCondition, now: int)
    requires c.schedule.Some? ==> IsSchedule(c.schedule.value)
    ensures SlotToFire(c, now, Some(now)).None?
  {
    if c.schedule.Some? && c.schedule.value(now).Some? { assert c.schedule.value(now).value <= now; }
  }

  lemma ToFireAppend(
    was: map<ConditionId, int>, conditions: seq<CronCondition>, c: CronCondition, now: int, id: ConditionId)
    requires c.schedule.Some? ==> IsSchedule(c.schedule.value)
    ensures ToFire(was, conditions + [c], now, id) <==>
              ToFire(was, conditions, now, id) || (c.id == id && SlotToFire(c, now, LastOf(was, id)).Some?)
  {
    var all := conditions + [c];
    FiresExactlyWhen(c, now, LastOf(was, id));
    if ToFire(was, conditions, now, id) {
      var d :| d in conditions && d.id == id && DueNow(d, now, LastOf(was, id));
      assert d in all;
    }
    if c.id == id && SlotToFire(c, now, LastOf(was, id)).Some? { assert c in all; }
  }

  lemma HasFiredAppend(fired: seq<Fired>, f: Fired, id: ConditionId)
    ensures HasFired(fired + [f], id) <==> HasFired(fired, id) || f.condition == id
  {
    if HasFired(fired, id) {
      var g :| g in fired && g.condition == id;
      assert g in fired + [f];
    }
    if f.condition == id { assert f in fired + [f]; }
  }

  lemma NotFiredYet(fired: seq<Fired>, id: ConditionId)
    requires !HasFired(fired, id)
    ensures forall i | 0 <= i < |fired| :: fired[i].condition != id
  {
    forall i | 0 <= i < |fired| ensures fired[i].condition != id { assert fired[i] in fired; }
  }

  /** Evaluating a condition that has a slot to fire. */
  lemma FiresNext(was: map<ConditionId, int>, conditions: seq<CronCondition>, now: int, p: Passed, c: CronCondition)
    requires PassedAs(was, conditions, now, p) && (c.schedule.Some? ==> IsSchedule(c.schedule.value))
    requires SlotToFire(c, now, LastOf(p.executions, c.id)).Some?
    ensures PassedAs(was, conditions + [c], now, Evaluate(p, c, now))
  {
    NotAgain(c, now);
    assert !HasFired(p.fired, c.id);
    NotFiredYet(p.fired, c.id);
    var q, f := Evaluate(p, c, now), Fired(c.id, now, LastOf(was, c.id));
    assert q.fired == p.fired + [f];
    forall id
      ensures HasFired(q.fired, id) <==> ToFire(was, conditions + [c], now, id)
      ensures LastOf(q.executions, id) == if HasFired(q.fired, id) then Some(now) else LastOf(was, id)
    {
      HasFiredAppend(p.fired, f, id);
      ToFireAppend(was, conditions, c, now, id);
    }
  }

  /** Evaluating one that has none, because it never had or because its id has fired. */
  lemma SkipsNext(was: map<ConditionId, int>, conditions: seq<CronCondition>, now: int, p: Passed, c: CronCondition)
    requires PassedAs(was, conditions, now, p) && (c.schedule.Some? ==> IsSchedule(c.schedule.value))
    requires SlotToFire(c, now, LastOf(p.executions, c.id)).None?
    ensures PassedAs(was, conditions + [c], now, Evaluate(p, c, now))
  {
    forall id ensures HasFired(p.fired, id) <==> ToFire(was, conditions + [c], now, id) {
      ToFireAppend(was, conditions, c, now, id);
    }
  }

  /** What one pass does, whatever the order of the conditions and however often an id occurs. */
  lemma {:induction false} PassMeaning(was: map<ConditionId, int>, conditions: seq<CronCondition>, now: int)
    requires AllSchedules(conditions)
    ensures PassedAs(was, conditions, now, Pass(was, conditions, now))
  {
    if conditions != [] {
      var n := |conditions| - 1;
      var before, c := Pass(was, conditions[..n], now), conditions[n];
      PassMeaning(was, conditions[..n], now);
      assert conditions[..n] + [c] == conditions;
      if SlotToFire(c, now, LastOf(before.executions, c.id)).Some? {
        FiresNext(was, conditions[..n], now, before, c);
      } else {
        SkipsNext(was, conditions[..n], now, before, c);
      }
    }
  }

  /** The valid conditions of the firings recorded over those pending; `name` gives a firing's id. */
  function Recorded(valid: map<ValidId, ValidCondition>, fired: seq<Fired>, name: Fired -> ValidId)
    : map<ValidId, ValidCondition>
  {
    if fired == [] then valid
    else
      var f := fired[|fired| - 1];
      Recorded(valid, fired[..|fired| - 1], name)[name(f) := ValidCondition(name(f), f.condition)]
  }

  /** Every firing's condition is pending under its name afterwards, and nothing else changes. */
  lemma {:induction false} RecordedMeaning(
    valid: map<ValidId, ValidCondition>, fired: seq<Fired>, name: Fired -> ValidId, v: ValidId)
    ensures var now := Recorded(valid, fired, name);
            && (v in now <==> v in valid || exists f | f in fired :: name(f) == v)
            && (v in now && !(exists f | f in fired :: name(f) == v) ==> now[v] == valid[v])
            && (v in now && (exists f | f in fired :: name(f) == v) ==>
                  now[v].id == v && exists f | f in fired :: name(f) == v && now[v].condition == f.condition)
  {
    if fired != [] {
      var n := |fired| - 1;
      RecordedMeaning(valid, fired[..n], name, v);
      assert fired == fired[..n] + [fired[n]];
    }
  }

  /** `store_cron_execution`: write the time only if the stored one is the expected one. */
  method StoreCronExecution(store: MemTriggerStore, id: ConditionId, time: int, expected: Option<int>)
    returns (stored: bool)
    modifies store`cronExecutions
    ensures stored <==> LastOf(old(store.cronExecutions), id) == expected
    ensures store.cronExecutions == if stored then old(store.cronExecutions)[id := time] else old(store.cronExecutions)
  {
    stored := LastOf(store.cronExecutions, id) == expected;
    if stored { store.cronExecutions := store.cronExecutions[id := time]; }
  }

  method EvaluateCronConditions(
    store: MemTriggerStore, conditions: seq<CronCondition>, now: int, name: Fired -> ValidId)
    returns (fired: seq<Fired>)
    modifies store`cronExecutions, store`validConditions
    ensures Passed(store.cronExecutions, fired) == Pass(old(store.cronExecutions), conditions, now)
    ensures AllSchedules(conditions) ==>
              PassedAs(old(store.cronExecutions), conditions, now, Passed(store.cronExecutions, fired))
    ensures store.validConditions == Recorded(old(store.validConditions), fired, name)
  {
    ghost var was, pending := store.cronExecutions, store.validConditions;
    fired := [];
    for i := 0 to |conditions|
      invariant Passed(store.cronExecutions, fired) == Pass(was, conditions[..i], now)
      invariant store.validConditions == Recorded(pending, fired, name)
    {
      assert conditions[..i + 1][..i] == conditions[..i];
      var c := conditions[i];
      var last := LastOf(store.cronExecutions, c.id);
      if SlotToFire(c, now, last).Some? {
        var claimed := StoreCronExecution(store, c.id, now, last);
        if claimed {
          var f := Fired(c.id, now, last);
          assert (fired + [f])[..|fired|] == fired;
          store.RecordValidCondition(ValidCondition(name(f), c.id));
          fired := fired + [f];
        }
      }
    }
    assert conditions[..|conditions|] == conditions;
    if AllSchedules(conditions) { PassMeaning(was, conditions, now); }
  }

  // -- runners racing on one condition ------------------------------------

  datatype Runner =
    | Started(now: int)                                 // read its clock
    | HasLast(now: int, last: Option<int>)              // read the last execution
    | Swapping(now: int, last: Option<int>, slot: int)  // decided to fire
    | Recording(firing: nat)                            // won; the valid condition is not recorded yet
    | Ended

  datatype Firing = Firing(now: int, slot: int, last: Option<int>)

  datatype State = State(
    stored: Option<int>,
    runners: map<nat, Runner>,
    // History variables.
    firings: seq<Firing>,
    recorded: seq<nat>)       // firings whose valid condition was recorded

  const INIT := State(None, map[], [], [])

  datatype Step = Start(r: nat, now: int) | Advance(r: nat) | Crash(r: nat)

  predicate Enabled(s: State, step: Step) {
    match step
    case Start(r, _) => r !in s.runners
    case Advance(r) => r in s.runners && !s.runners[r].Ended?
    case Crash(r) => r in s.runners
  }

  function Move(s: State, r: nat, x: Runner): State {
    s.(runners := s.runners[r := x])
  }

  function Swap(s: State, r: nat, now: int, last: Option<int>, slot: int): State {
    if s.stored == last then
      Move(s, r, Recording(|s.firings|)).(stored := Some(now), firings := s.firings + [Firing(now, slot, last)])
    else Move(s, r, Ended)
  }

  function Apply(c: CronCondition, s: State, step: Step): State
    requires Enabled(s, step)
  {
    match step
    case Start(r, now) => Move(s, r, Started(now))
    case Crash(r) => Move(s, r, Ended)
    case Advance(r) =>
      match s.runners[r]
      case Started(now) => Move(s, r, HasLast(now, s.stored))
      case HasLast(now, last) =>
        var slot := SlotToFire(c, now, last);
        Move(s, r, if slot.Some? then Swapping(now, last, slot.value) else Ended)
      case Swapping(now, last, slot) => Swap(s, r, now, last, slot)
      case Recording(k) => Move(s, r, Ended).(recorded := s.recorded + [k])
  }

  ghost predicate IsRun(c: CronCondition, run: seq<State>, steps: seq<Step>) {
    && |run| == |steps| + 1
    && run[0] == INIT
    && forall i | 0 <= i < |steps| :: Enabled(run[i], steps[i]) && run[i + 1] == Apply(c, run[i], steps[i])
  }

  function LastFiring(firings: seq<Firing>): Option<int> {
    if firings == [] then None else Some(firings[|firings| - 1].now)
  }

  ghost predicate RunnerInv(c: CronCondition, s: State, x: Runner) {
    && (x.Swapping? ==> SlotToFire(c, x.now, x.last) == Some(x.slot))
    && (x.Recording? ==> x.firing < |s.firings| && x.firing !in s.recorded)
  }

  /** Each firing saw the one before it as the last execution, and its slot was due. */
  ghost predicate FiringsInv(c: CronCondition, firings: seq<Firing>) {
    forall k | 0 <= k < |firings| :: FiringInv(c, firings, k)
  }

  ghost predicate FiringInv(c: CronCondition, firings: seq<Firing>, k: nat)
    requires k < |firings|
  {
    && firings[k].last == LastFiring(firings[..k])
    && SlotToFire(c, firings[k].now, firings[k].last) == Some(firings[k].slot)
  }

  ghost predicate RunnersInv(c: CronCondition, s: State) {
    && (forall r | r in s.runners :: RunnerInv(c, s, s.runners[r]))
    && (forall q, r |
          q in s.runners && r in s.runners && q != r && s.runners[q].Recording? && s.runners[r].Recording? ::
          s.runners[q].firing != s.runners[r].firing)
  }

  ghost predicate RecordedInv(s: State) {
    && (forall j, k | 0 <= j < k < |s.recorded| :: s.recorded[j] != s.recorded[k])
    && (forall k | k in s.recorded :: k < |s.firings|)
  }

  ghost predicate Inv(c: CronCondition, s: State) {
    && s.stored == LastFiring(s.firings)
    && FiringsInv(c, s.firings) && RunnersInv(c, s) && RecordedInv(s)
  }

  lemma FiringAdded(c: CronCondition, firings: seq<Firing>, f: Firing)
    requires FiringsInv(c, firings)
    requires f.last == LastFiring(firings) && SlotToFire(c, f.now, f.last) == Some(f.slot)
    ensures FiringsInv(c, firings + [f])
  {
    var more, n := firings + [f], |firings|;
    forall k | 0 <= k < |more| ensures FiringInv(c, more, k) {
      assert more[..k] == firings[..k];
      if k == n { assert firings[..n] == firings; } else { assert FiringInv(c, firings, k); }
    }
  }

  lemma SwapInv(c: CronCondition, s: State, r: nat)
    requires Inv(c, s) && r in s.runners && s.runners[r].Swapping?
    ensures Inv(c, Swap(s, r, s.runners[r].now, s.runners[r].last, s.runners[r].slot))
  {
    var x := s.runners[r];
    var t := Swap(s, r, x.now, x.last, x.slot);
    assert RunnerInv(c, s, x);
    if s.stored == x.last { FiringAdded(c, s.firings, Firing(x.now, x.slot, x.last)); }
    forall q | q in t.runners ensures RunnerInv(c, t, t.runners[q]) {
      if q != r { assert RunnerInv(c, s, s.runners[q]); }
    }
  }

  lemma StepInv(c: CronCondition, s: State, step: Step)
    requires Inv(c, s) && Enabled(s, step)
    ensures Inv(c, Apply(c, s, step))
  {
    if step.Advance? && s.runners[step.r].Swapping? {
      SwapInv(c, s, step.r);
    } else {
      var t := Apply(c, s, step);
      assert t.firings == s.firings && t.stored == s.stored;
      forall q | q in t.runners ensures RunnerInv(c, t, t.runners[q]) {
        if q in s.runners { assert RunnerInv(c, s, s.runners[q]); }
      }
    }
  }

  lemma {:induction false} RunInv(c: CronCondition, run: seq<State>, steps: seq<Step>, i: nat)
    requires IsRun(c, run, steps) && i < |run|
    ensures Inv(c, run[i])
  {
    if i > 0 {
      RunInv(c, run, steps, i - 1);
      StepInv(c, run[i - 1], steps[i - 1]);
    }
  }

  /** Consecutive and all later firings: slots and execution times strictly increase and executions
      are at least the minimum interval apart. */
  lemma {:induction false} FiringsIncrease(c: CronCondition, s: State, a: nat, b: nat)
    requires c.schedule.Some? && IsSchedule(c.schedule.value) && Inv(c, s) && a < b < |s.firings|
    ensures s.firings[a].slot <= s.firings[a].now < s.firings[b].slot <= s.firings[b].now
    ensures c.minIntervalSeconds <= MAX_I64 ==>
              s.firings[b].now - s.firings[a].now >= c.minIntervalSeconds * SECOND
    decreases b
  {
    var f, g := s.firings[b - 1], s.firings[b];
    assert FiringInv(c, s.firings, b - 1) && FiringInv(c, s.firings, b);
    assert s.firings[..b][|s.firings[..b]| - 1] == f;
    assert g.last == Some(f.now);
    FiringIsSound(c, g.now, g.last);
    FiringIsSound(c, f.now, f.last);
    if a < b - 1 { FiringsIncrease(c, s, a, b - 1); }
  }

  /** For any interleaving of runners, crashes and clocks: no slot fires twice, and firings move
      forward in time and keep the minimum interval. */
  lemma CronFiresOnce(c: CronCondition, run: seq<State>, steps: seq<Step>, i: nat, a: nat, b: nat)
    requires c.schedule.Some? && IsSchedule(c.schedule.value)
    requires IsRun(c, run, steps) && i < |run| && a < b < |run[i].firings|
    ensures run[i].firings[a].slot < run[i].firings[b].slot
    ensures run[i].firings[a].now < run[i].firings[b].now
    ensures c.minIntervalSeconds <= MAX_I64 ==>
              run[i].firings[b].now - run[i].firings[a].now >= c.minIntervalSeconds * SECOND
  {
    RunInv(c, run, steps, i);
    FiringsIncrease(c, run[i], a, b);
  }

  /** Every firing is of the latest slot its runner's clock knew, less than 121 seconds old, and records
      at most one valid condition. */
  lemma CronWithinGrace(c: CronCondition, run: seq<State>, steps: seq<Step>, i: nat, k: nat)
    requires c.schedule.Some? && IsSchedule(c.schedule.value)
    requires IsRun(c, run, steps) && i < |run| && k < |run[i].firings|
    ensures c.schedule.value(run[i].firings[k].now) == Some(run[i].firings[k].slot)
    ensures 0 <= run[i].firings[k].now - run[i].firings[k].slot < (GRACE_SECONDS + 1) * SECOND
    ensures forall j, m | 0 <= j < m < |run[i].recorded| :: run[i].recorded[j] != run[i].recorded[m]
    ensures forall m | m in run[i].recorded :: m < |run[i].firings|
  {
    RunInv(c, run, steps, i);
    assert FiringInv(c, run[i].firings, k);
    FiringIsSound(c, run[i].firings[k].now, run[i].firings[k].last);
  }

  lemma StoredStep(c: CronCondition, s: State, step: Step)
    requires c.schedule.Some? && IsSchedule(c.schedule.value)
    requires Inv(c, s) && Enabled(s, step) && s.stored.Some?
    ensures var t := Apply(c, s, step);
            t.stored.Some? && (t.stored == s.stored || s.stored.value < t.stored.value)
  {
    if step.Advance? && s.runners[step.r].Swapping? {
      var x := s.runners[step.r];
      assert RunnerInv(c, s, x);
      FiringIsSound(c, x.now, x.last);
    }
  }

  /** Stored execution times strictly increase along a run. */
  lemma {:induction false} StoredTimesIncrease(c: CronCondition, run: seq<State>, steps: seq<Step>, i: nat, j: nat)
    requires c.schedule.Some? && IsSchedule(c.schedule.value)
    requires IsRun(c, run, steps) && i <= j < |run| && run[i].stored.Some?
    ensures run[j].stored.Some? && run[i].stored.value <= run[j].stored.value
    ensures run[i].stored != run[j].stored ==> run[i].stored.value < run[j].stored.value
    decreases j
  {
    if i < j {
      StoredTimesIncrease(c, run, steps, i, j - 1);
      RunInv(c, run, steps, j - 1);
      StoredStep(c, run[j - 1], steps[j - 1]);
    }
  }

  // -- a runner left alone fires ------------------------------------------

  /** A runner's whole evaluation with nothing in between: start, read, decide, swap and record. */
  function Evaluation(c: CronCondition, s: State, r: nat, now: int): State
    requires r !in s.runners
  {
    var read := Apply(c, Apply(c, s, Start(r, now)), Advance(r));
    var decided := Apply(c, read, Advance(r));
    if decided.runners[r].Ended? then decided
    else
      var swapped := Apply(c, decided, Advance(r));
      if swapped.runners[r].Ended? then swapped else Apply(c, swapped, Advance(r))
  }

  /** From any state a runner that is not disturbed fires, stores its time and records the condition
      exactly when the condition is due by the stored execution; otherwise it changes nothing. */
  lemma UndisturbedRunnerFires(c: CronCondition, s: State, r: nat, now: int)
    requires r !in s.runners && c.schedule.Some? && IsSchedule(c.schedule.value)
    ensures var t := Evaluation(c, s, r, now);
            if DueNow(c, now, s.stored) then
              && t.stored == Some(now)
              && t.firings == s.firings + [Firing(now, c.schedule.value(now).value, s.stored)]
              && t.recorded == s.recorded + [|s.firings|]
            else t.stored == s.stored && t.firings == s.firings && t.recorded == s.recorded
  {
    FiresExactlyWhen(c, now, s.stored);
  }
}
