/**
 Trigger evaluation: from pending valid conditions, through the condition index,
 to claimed runs; and its agreement with a scan of all definitions.
 */
module TriggerEvaluation {

  import opened Wrappers
  import opened TriggerOutbox
  import opened TriggerRegistry

  datatype Candidate = Candidate(run: RunId, trigger: Trigger, selected: seq<ValidCondition>)

  function OfCondition(vcs: seq<ValidCondition>, c: ConditionId): seq<ValidCondition> {
    if vcs == [] then []
    else OfCondition(vcs[..|vcs| - 1], c) + if vcs[|vcs| - 1].condition == c then [vcs[|vcs| - 1]] else []
  }

  predicate Satisfied(t: Trigger, vcs: seq<ValidCondition>) {
    forall c | c in t.conditions :: OfCondition(vcs, c) != []
  }

  /** The first pending valid condition of each listed condition. */
  function Select(cs: seq<ConditionId>, vcs: seq<ValidCondition>): seq<ValidCondition>
    requires forall c | c in cs :: OfCondition(vcs, c) != []
  {
    if cs == [] then [] else Select(cs[..|cs| - 1], vcs) + [OfCondition(vcs, cs[|cs| - 1])[0]]
  }

  function Ids(vcs: seq<ValidCondition>): multiset<ValidId> {
    if vcs == [] then multiset{} else Ids(vcs[..|vcs| - 1]) + multiset{vcs[|vcs| - 1].id}
  }

  function AndCandidate(t: Trigger, vcs: seq<ValidCondition>): Candidate
    requires Satisfied(t, vcs)
  {
    var selected := Select(t.conditions, vcs);
    Candidate(RunId(t.id, Ids(selected)), t, selected)
  }

  function OrCandidate(t: Trigger, vc: ValidCondition): Candidate {
    Candidate(RunId(t.id, multiset{vc.id}), t, [vc])
  }

  function OrEach(t: Trigger, vcs: seq<ValidCondition>): seq<Candidate> {
    seq(|vcs|, i requires 0 <= i < |vcs| => OrCandidate(t, vcs[i]))
  }

  function OrCandidates(t: Trigger, cs: seq<ConditionId>, vcs: seq<ValidCondition>): seq<Candidate> {
    if cs == [] then []
    else OrCandidates(t, cs[..|cs| - 1], vcs) + OrEach(t, OfCondition(vcs, cs[|cs| - 1]))
  }

  function CandidatesOf(t: Trigger, vcs: seq<ValidCondition>): seq<Candidate> {
    match t.logic
    case And => if Satisfied(t, vcs) then [AndCandidate(t, vcs)] else []
    case Or => OrCandidates(t, t.conditions, vcs)
  }

  function Candidates(ts: seq<Trigger>, vcs: seq<ValidCondition>): seq<Candidate> {
    if ts == [] then [] else Candidates(ts[..|ts| - 1], vcs) + CandidatesOf(ts[|ts| - 1], vcs)
  }

  /** A trigger that fires consumes every pending valid condition of its condition list. */
  predicate Consumes(t: Trigger, vcs: seq<ValidCondition>, v: ValidCondition) {
    (t.logic == Or || Satisfied(t, vcs)) && v.condition in t.conditions
  }

  function ConsumedBy(t: Trigger, vcs: seq<ValidCondition>): set<ValidId> {
    set v | v in vcs && Consumes(t, vcs, v) :: v.id
  }

  function Consumed(ts: seq<Trigger>, vcs: seq<ValidCondition>): set<ValidId> {
    if ts == [] then {} else Consumed(ts[..|ts| - 1], vcs) + ConsumedBy(ts[|ts| - 1], vcs)
  }

  /** The outbox record of one firing; `derive` is the run-derived invocation id. */
  function PlannedRun(derive: RunId -> InvocationId, x: Candidate, now: int): Record {
    Record(x.run, x.trigger.id, x.trigger.task, x.trigger.logic, x.trigger.arguments, x.selected,
           now, None, Some(derive(x.run)), None)
  }

  function PlannedRuns(derive: RunId -> InvocationId, xs: seq<Candidate>, now: int): seq<Record> {
    seq(|xs|, i requires 0 <= i < |xs| => PlannedRun(derive, xs[i], now))
  }

  // -- facts about filtering ----------------------------------------------

  lemma {:induction false} OfConditionMeaning(vcs: seq<ValidCondition>, c: ConditionId)
    ensures forall v :: v in OfCondition(vcs, c) <==> v in vcs && v.condition == c
  {
    if vcs != [] {
      OfConditionMeaning(vcs[..|vcs| - 1], c);
      assert forall v :: v in vcs <==> v in vcs[..|vcs| - 1] || v == vcs[|vcs| - 1];
    }
  }

  lemma {:induction false} OrCandidatesMeaning(t: Trigger, cs: seq<ConditionId>, vcs: seq<ValidCondition>)
    ensures forall x :: x in OrCandidates(t, cs, vcs) <==>
              exists v | v in vcs :: v.condition in cs && x == OrCandidate(t, v)
  {
    if cs != [] {
      var n := |cs| - 1;
      OrCandidatesMeaning(t, cs[..n], vcs);
      OfConditionMeaning(vcs, cs[n]);
      assert forall c :: c in cs <==> c in cs[..n] || c == cs[n];
      var last := OfCondition(vcs, cs[n]);
      forall x ensures x in OrEach(t, last) <==> exists v | v in vcs :: v.condition == cs[n] && x == OrCandidate(t, v) {
        if x in OrEach(t, last) {
          var i :| 0 <= i < |last| && OrEach(t, last)[i] == x;
          assert last[i] in last;
        }
        if v :| v in vcs && v.condition == cs[n] && x == OrCandidate(t, v) {
          var i :| 0 <= i < |last| && last[i] == v;
          assert OrEach(t, last)[i] == x;
        }
      }
    }
  }

  // -- the scan -----------------------------------------------------------

  /** What one definition fires by itself: an AND trigger its one run, an OR trigger one run per
      pending valid condition of its list. */
  ghost predicate Fires(t: Trigger, vcs: seq<ValidCondition>, run: RunId) {
    match t.logic
    case And => Satisfied(t, vcs) && run == RunId(t.id, Ids(Select(t.conditions, vcs)))
    case Or => exists v | v in vcs :: v.condition in t.conditions && run == RunId(t.id, multiset{v.id})
  }

  /** The runs a scan of all definitions with at least one condition gives. */
  ghost predicate InScan(reg: Registry, vcs: seq<ValidCondition>, run: RunId) {
    exists t | t in reg.triggers :: reg.triggers[t].conditions != [] && Fires(reg.triggers[t], vcs, run)
  }

  /** The definitions reached through the condition index. */
  ghost predicate Found(reg: Registry, vcs: seq<ValidCondition>, t: TriggerId) {
    t in reg.triggers && exists v | v in vcs :: t in Listed(reg.index, v.condition)
  }

  ghost predicate InIndexed(reg: Registry, vcs: seq<ValidCondition>, run: RunId) {
    exists t | t in reg.triggers ::
      Found(reg, vcs, t) && exists x | x in CandidatesOf(reg.triggers[t], vcs) :: x.run == run
  }

  /** An AND definition without conditions that an old index entry of a pending condition still lists. */
  ghost predicate StaleEmpty(reg: Registry, vcs: seq<ValidCondition>, t: TriggerId) {
    Found(reg, vcs, t) && reg.triggers[t].conditions == [] && reg.triggers[t].logic == And
  }

  lemma CandidatesFire(t: Trigger, vcs: seq<ValidCondition>, run: RunId)
    ensures (exists x | x in CandidatesOf(t, vcs) :: x.run == run) <==> Fires(t, vcs, run)
  {
    match t.logic
    case And => if Satisfied(t, vcs) { assert AndCandidate(t, vcs) in CandidatesOf(t, vcs); }
    case Or =>
      OrCandidatesMeaning(t, t.conditions, vcs);
      if v :| v in vcs && v.condition in t.conditions && run == RunId(t.id, multiset{v.id}) {
        assert OrCandidate(t, v) in CandidatesOf(t, vcs);
      }
  }

  /** A definition with a condition that fires has a pending valid condition that lists it. */
  lemma FiringIsFound(reg: Registry, vcs: seq<ValidCondition>, t: TriggerId, run: RunId)
    requires Indexed(reg) && t in reg.triggers && reg.triggers[t].conditions != [] && Fires(reg.triggers[t], vcs, run)
    ensures Found(reg, vcs, t)
  {
    var trigger := reg.triggers[t];
    if trigger.logic == And {
      var c := trigger.conditions[0];
      OfConditionMeaning(vcs, c);
      var v := OfCondition(vcs, c)[0];
      assert v in OfCondition(vcs, c);
      assert v in vcs && t in Listed(reg.index, v.condition);
    }
  }

  lemma {:induction false} SelectSize(cs: seq<ConditionId>, vcs: seq<ValidCondition>)
    requires forall c | c in cs :: OfCondition(vcs, c) != []
    ensures |Select(cs, vcs)| == |cs| && |Ids(Select(cs, vcs))| == |cs|
  {
    if cs != [] {
      var n := |cs| - 1;
      SelectSize(cs[..n], vcs);
      var s := Select(cs, vcs);
      assert s[..n] == Select(cs[..n], vcs);
    }
  }

  /** Evaluation through the index finds exactly the runs a full scan gives, if and only if no
      pending condition still lists an AND definition that has lost all its conditions. */
  lemma IndexedEqualsScan(reg: Registry, vcs: seq<ValidCondition>)
    requires Indexed(reg)
    ensures (forall run :: InIndexed(reg, vcs, run) <==> InScan(reg, vcs, run)) <==>
              (forall t :: !StaleEmpty(reg, vcs, t))
  {
    forall t | t in reg.triggers, run
      ensures (exists x | x in CandidatesOf(reg.triggers[t], vcs) :: x.run == run) <==> Fires(reg.triggers[t], vcs, run)
    {
      CandidatesFire(reg.triggers[t], vcs, run);
    }
    forall run ensures InScan(reg, vcs, run) ==> InIndexed(reg, vcs, run) {
      if t :| t in reg.triggers && reg.triggers[t].conditions != [] && Fires(reg.triggers[t], vcs, run) {
        FiringIsFound(reg, vcs, t, run);
      }
    }
    if t :| StaleEmpty(reg, vcs, t) {
      var run := RunId(reg.triggers[t].id, multiset{});
      assert Fires(reg.triggers[t], vcs, run);
      assert InIndexed(reg, vcs, run);
      EmptyRunNotScanned(reg, vcs, run);
    } else {
      forall run | InIndexed(reg, vcs, run) ensures InScan(reg, vcs, run) {
        var t :| t in reg.triggers && Found(reg, vcs, t)
          && exists x | x in CandidatesOf(reg.triggers[t], vcs) :: x.run == run;
        assert !StaleEmpty(reg, vcs, t);
        assert Fires(reg.triggers[t], vcs, run);
      }
    }
  }

  lemma EmptyRunNotScanned(reg: Registry, vcs: seq<ValidCondition>, run: RunId)
    requires run.participants == multiset{}
    ensures !InScan(reg, vcs, run)
  {
    forall t | t in reg.triggers && reg.triggers[t].conditions != [] ensures !Fires(reg.triggers[t], vcs, run) {
      var trigger := reg.triggers[t];
      if trigger.logic == And && Satisfied(trigger, vcs) { SelectSize(trigger.conditions, vcs); }
    }
  }

  // -- over every history of registrations and removals -------------------

  datatype Change = Add(trigger: Trigger) | Delete(id: TriggerId)

  function After(changes: seq<Change>): Registry {
    if changes == [] then EMPTY
    else
      var reg := After(changes[..|changes| - 1]);
      match changes[|changes| - 1]
      case Add(t) => Register(reg, t)
      case Delete(id) => if id in reg.triggers then Remove(reg, id) else reg
  }

  lemma {:induction false} HistoryIndexed(changes: seq<Change>)
    ensures Indexed(After(changes))
    ensures forall t | t in After(changes).triggers :: Add(After(changes).triggers[t]) in changes
  {
    if changes != [] {
      var n := |changes| - 1;
      HistoryIndexed(changes[..n]);
      var reg := After(changes[..n]);
      match changes[n]
      case Add(t) => RegisterIndexed(reg, t);
      case Delete(id) => if id in reg.triggers { RemoveIndexed(reg, id); }
    }
  }

  /** A definition was registered under this id with this condition. */
  ghost predicate WasListed(changes: seq<Change>, t: TriggerId, c: ConditionId) {
    exists a :: Add(a) in changes && a.id == t && c in a.conditions
  }

  /** Index entries come from registrations, whatever was removed since. */
  lemma {:induction false} ListedWasAdded(changes: seq<Change>, t: TriggerId, c: ConditionId)
    requires t in Listed(After(changes).index, c)
    ensures WasListed(changes, t, c)
  {
    if changes != [] {
      var n := |changes| - 1;
      var reg := After(changes[..n]);
      HistoryIndexed(changes[..n]);
      match changes[n] {
        case Add(a) => AddEntriesLists(reg.index, a.conditions, a.id);
        case Delete(id) => if id in reg.triggers { DropEntriesLists(reg.index, reg.triggers[id].conditions, id); }
      }
      if t in Listed(reg.index, c) {
        ListedWasAdded(changes[..n], t, c);
        var a :| Add(a) in changes[..n] && a.id == t && c in a.conditions;
        assert Add(a) in changes;
      } else {
        assert changes[n].Add? && changes[n].trigger.id == t && c in changes[n].trigger.conditions;
        assert Add(changes[n].trigger) in changes;
      }
    }
  }

  /** No id that is registered as an AND definition without conditions is ever registered with one. */
  ghost predicate NoneEmptied(changes: seq<Change>) {
    forall a, b | Add(a) in changes && Add(b) in changes && a.id == b.id && b.logic == And && b.conditions == [] ::
      a.conditions == []
  }

  /** After any history of registrations and removals that does not register an id both with conditions
      and as an AND definition without any, indexed evaluation is the scan. */
  lemma HistoryIndexedEqualsScan(changes: seq<Change>, vcs: seq<ValidCondition>, run: RunId)
    requires NoneEmptied(changes)
    ensures InIndexed(After(changes), vcs, run) <==> InScan(After(changes), vcs, run)
  {
    HistoryIndexed(changes);
    var reg := After(changes);
    forall t ensures !StaleEmpty(reg, vcs, t) {
      if StaleEmpty(reg, vcs, t) { StaleWasAdded(changes, vcs, t); }
    }
    IndexedEqualsScan(reg, vcs);
  }

  lemma StaleWasAdded(changes: seq<Change>, vcs: seq<ValidCondition>, t: TriggerId)
    requires StaleEmpty(After(changes), vcs, t)
    ensures !NoneEmptied(changes)
  {
    HistoryIndexed(changes);
    var reg := After(changes);
    var v :| v in vcs && t in Listed(reg.index, v.condition);
    ListedWasAdded(changes, t, v.condition);
    var a :| Add(a) in changes && a.id == t && v.condition in a.conditions;
    assert Add(reg.triggers[t]) in changes && reg.triggers[t].id == t;
  }

  /** In particular when a trigger id determines its condition list. */
  lemma DeterminedIndexedEqualsScan(changes: seq<Change>, vcs: seq<ValidCondition>, run: RunId)
    requires forall a, b | Add(a) in changes && Add(b) in changes && a.id == b.id :: a.conditions == b.conditions
    ensures InIndexed(After(changes), vcs, run) <==> InScan(After(changes), vcs, run)
  {
    HistoryIndexedEqualsScan(changes, vcs, run);
  }

  /** Registering an AND trigger and registering it again without conditions makes its old
      condition fire it: the index finds a run the scan does not. */
  lemma StaleEntryFires(t: TriggerId, c: ConditionId, v: ValidId)
    ensures var one := Trigger(t, 0, [c], And, None);
            var none := Trigger(t, 0, [], And, None);
            var reg := After([Add(one), Add(none)]);
            && InIndexed(reg, [ValidCondition(v, c)], RunId(t, multiset{}))
            && !InScan(reg, [ValidCondition(v, c)], RunId(t, multiset{}))
  {
    var one, none := Trigger(t, 0, [c], And, None), Trigger(t, 0, [], And, None);
    var changes := [Add(one), Add(none)];
    var reg := After(changes);
    var vcs := [ValidCondition(v, c)];
    assert changes[..1] == [Add(one)] && [Add(one)][..0] == [] && [c][..0] == [];
    assert After([Add(one)]) == Register(EMPTY, one);
    assert AddEntries(EMPTY.index, [c], t) == AddEntry(AddEntries(EMPTY.index, [], t), c, t);
    assert reg == Register(Register(EMPTY, one), none);
    assert ValidCondition(v, c) in vcs && t in Listed(reg.index, c);
    assert StaleEmpty(reg, vcs, t);
    CandidatesFire(none, vcs, RunId(t, multiset{}));
    EmptyRunNotScanned(reg, vcs, RunId(t, multiset{}));
  }

  // -- one run per pair ---------------------------------------------------

  lemma {:induction false} OfConditionDistinct(vcs: seq<ValidCondition>, c: ConditionId)
    requires forall i, j | 0 <= i < j < |vcs| :: vcs[i].id != vcs[j].id
    ensures forall i, j | 0 <= i < j < |OfCondition(vcs, c)| :: OfCondition(vcs, c)[i].id != OfCondition(vcs, c)[j].id
    ensures forall v | v in OfCondition(vcs, c) :: v in vcs
  {
    if vcs != [] {
      var n := |vcs| - 1;
      OfConditionDistinct(vcs[..n], c);
      forall v | v in OfCondition(vcs[..n], c) ensures v.id != vcs[n].id {
        var i :| 0 <= i < n && vcs[..n][i] == v;
        assert vcs[i] == v;
      }
    }
  }

  ghost predicate DistinctRuns(xs: seq<Candidate>) {
    forall i, j | 0 <= i < j < |xs| :: xs[i].run != xs[j].run
  }

  lemma ConcatDistinct(a: seq<Candidate>, b: seq<Candidate>)
    requires DistinctRuns(a) && DistinctRuns(b)
    requires forall x, y | x in a && y in b :: x.run != y.run
    ensures DistinctRuns(a + b)
  {
    var xs := a + b;
    forall i, j | 0 <= i < j < |xs| ensures xs[i].run != xs[j].run {
      if i < |a| <= j {
        assert xs[i] in a && xs[j] in b;
      }
    }
  }

  lemma OrEachDistinct(t: Trigger, vcs: seq<ValidCondition>)
    requires forall i, j | 0 <= i < j < |vcs| :: vcs[i].id != vcs[j].id
    ensures DistinctRuns(OrEach(t, vcs))
  {
    forall i, j | 0 <= i < j < |vcs| ensures OrEach(t, vcs)[i].run != OrEach(t, vcs)[j].run {
      SingletonId(vcs[i].id, vcs[j].id);
    }
  }

  /** With no condition listed twice, an OR trigger has exactly one candidate per pending valid
      condition of its list; together with `AndCandidate` this is "one per". */
  lemma {:induction false} OrCandidatesDistinct(t: Trigger, cs: seq<ConditionId>, vcs: seq<ValidCondition>)
    requires forall i, j | 0 <= i < j < |cs| :: cs[i] != cs[j]
    requires forall i, j | 0 <= i < j < |vcs| :: vcs[i].id != vcs[j].id
    ensures DistinctRuns(OrCandidates(t, cs, vcs))
    ensures forall x :: x in OrCandidates(t, cs, vcs) <==>
              exists v | v in vcs :: v.condition in cs && x == OrCandidate(t, v)
  {
    OrCandidatesMeaning(t, cs, vcs);
    if cs != [] {
      var n := |cs| - 1;
      OrCandidatesDistinct(t, cs[..n], vcs);
      OrCandidatesMeaning(t, cs[..n], vcs);
      OfConditionDistinct(vcs, cs[n]);
      OfConditionMeaning(vcs, cs[n]);
      var before, last := OrCandidates(t, cs[..n], vcs), OfCondition(vcs, cs[n]);
      OrEachDistinct(t, last);
      forall x, y | x in before && y in OrEach(t, last) ensures x.run != y.run {
        var v :| v in vcs && v.condition in cs[..n] && x == OrCandidate(t, v);
        var j :| 0 <= j < |last| && OrEach(t, last)[j] == y;
        assert last[j] in last;
        DistinctIds(vcs, v, last[j]);
        SingletonId(v.id, last[j].id);
      }
      ConcatDistinct(before, OrEach(t, last));
    }
  }

  lemma DistinctIds(vcs: seq<ValidCondition>, a: ValidCondition, b: ValidCondition)
    requires forall i, j | 0 <= i < j < |vcs| :: vcs[i].id != vcs[j].id
    requires a in vcs && b in vcs && a != b
    ensures a.id != b.id
  {
    var i :| 0 <= i < |vcs| && vcs[i] == a;
    var j :| 0 <= j < |vcs| && vcs[j] == b;
    assert i < j || j < i;
  }

  lemma SingletonId(a: ValidId, b: ValidId)
    ensures multiset{a} == multiset{b} <==> a == b
  {
    if multiset{a} == multiset{b} { assert a in multiset{b}; }
  }

  // -- the evaluation itself ----------------------------------------------

  /** One candidate per pending valid condition of each listed condition. */
  method PlanOr(t: Trigger, vcs: seq<ValidCondition>) returns (xs: seq<Candidate>)
    ensures xs == OrCandidates(t, t.conditions, vcs)
  {
    xs := [];
    for k := 0 to |t.conditions|
      invariant xs == OrCandidates(t, t.conditions[..k], vcs)
    {
      assert t.conditions[..k + 1][..k] == t.conditions[..k];
      xs := xs + OrEach(t, OfCondition(vcs, t.conditions[k]));
    }
    assert t.conditions[..|t.conditions|] == t.conditions;
  }

  /** What one trigger fires and consumes. */
  method PlanOne(t: Trigger, vcs: seq<ValidCondition>) returns (xs: seq<Candidate>, ids: set<ValidId>)
    ensures xs == CandidatesOf(t, vcs) && ids == ConsumedBy(t, vcs)
  {
    xs, ids := [], {};
    if t.logic == And {
      if Satisfied(t, vcs) {
        xs := [AndCandidate(t, vcs)];
        ids := ConsumedBy(t, vcs);
      } else {
        assert ConsumedBy(t, vcs) == {};
      }
    } else {
      xs := PlanOr(t, vcs);
      ids := ConsumedBy(t, vcs);
    }
  }

  /** The planning loops of `evaluate_trigger_runs`. */
  method PlanRuns(ts: seq<Trigger>, vcs: seq<ValidCondition>)
    returns (candidates: seq<Candidate>, consumed: set<ValidId>)
    ensures candidates == Candidates(ts, vcs) && consumed == Consumed(ts, vcs)
  {
    candidates, consumed := [], {};
    for i := 0 to |ts|
      invariant candidates == Candidates(ts[..i], vcs) && consumed == Consumed(ts[..i], vcs)
    {
      assert ts[..i + 1][..i] == ts[..i];
      var xs, ids := PlanOne(ts[i], vcs);
      candidates, consumed := candidates + xs, consumed + ids;
    }
    assert ts[..|ts|] == ts;
  }

  method ToSeq(s: set<ValidId>) returns (r: seq<ValidId>)
    ensures |r| == |s| && forall v :: v in r <==> v in s
  {
    r := [];
    var rest := s;
    while rest != {}
      invariant rest <= s && |r| + |rest| == |s|
      invariant forall v :: v in r <==> v in s && v !in rest
      decreases |rest|
    {
      var v :| v in rest;
      r := r + [v];
      rest := rest - {v};
    }
  }

  /** Exactly the definitions the index lists under the pending conditions. */
  ghost predicate Reached(reg: Registry, vcs: seq<ValidCondition>, order: seq<Trigger>) {
    forall t :: t in order <==> Found(reg, vcs, t.id) && reg.triggers[t.id] == t
  }

  ghost predicate IdsApart(order: seq<Trigger>) {
    forall i, j | 0 <= i < j < |order| :: order[i].id != order[j].id
  }

  lemma FoundNext(reg: Registry, vcs: seq<ValidCondition>, i: nat, t: TriggerId)
    requires i < |vcs|
    ensures Found(reg, vcs[..i + 1], t) <==>
              Found(reg, vcs[..i], t) || (t in reg.triggers && t in Listed(reg.index, vcs[i].condition))
  {
    assert vcs[..i + 1] == vcs[..i] + [vcs[i]];
  }

  lemma ReachedNext(reg: Registry, vcs: seq<ValidCondition>, i: nat, had: seq<Trigger>, order: seq<Trigger>)
    requires Indexed(reg) && i < |vcs| && Reached(reg, vcs[..i], had)
    requires forall t :: t in order <==> t in had || t in Existing(reg.triggers, Listed(reg.index, vcs[i].condition))
    ensures Reached(reg, vcs[..i + 1], order)
  {
    ExistingMeaning(reg.triggers, Listed(reg.index, vcs[i].condition));
    forall t ensures t in order <==> Found(reg, vcs[..i + 1], t.id) && reg.triggers[t.id] == t {
      FoundNext(reg, vcs, i, t.id);
      assert t in had <==> Found(reg, vcs[..i], t.id) && reg.triggers[t.id] == t;
    }
  }

  /** Every definition is the one stored under its id. */
  ghost predicate AllStored(triggers: map<TriggerId, Trigger>, order: seq<Trigger>) {
    forall t | t in order :: t.id in triggers && triggers[t.id] == t
  }

  lemma ExistingStored(reg: Registry, ids: seq<TriggerId>)
    requires Indexed(reg)
    ensures AllStored(reg.triggers, Existing(reg.triggers, ids))
  {
    ExistingMeaning(reg.triggers, ids);
  }

  /** The `or_insert` loop: add the definitions whose id is not there yet. */
  method AddMissing(ghost triggers: map<TriggerId, Trigger>, had: seq<Trigger>, found: seq<Trigger>)
    returns (order: seq<Trigger>)
    requires AllStored(triggers, had) && AllStored(triggers, found) && IdsApart(had)
    ensures forall t :: t in order <==> t in had || t in found
    ensures AllStored(triggers, order) && IdsApart(order)
  {
    order := had;
    for k := 0 to |found|
      invariant forall t :: t in order <==> t in had || t in found[..k]
      invariant AllStored(triggers, order) && IdsApart(order)
    {
      assert found[..k + 1] == found[..k] + [found[k]];
      assert found[k] in found;
      if found[k] !in order { order := order + [found[k]]; }
    }
    assert found[..|found|] == found;
  }

  /** The definitions reached through the index, each once, in some order. */
  method FindTriggers(store: MemTriggerStore, vcs: seq<ValidCondition>) returns (order: seq<Trigger>)
    requires Indexed(store.Definitions())
    ensures Reached(store.Definitions(), vcs, order) && IdsApart(order)
  {
    order := [];
    for i := 0 to |vcs|
      invariant Reached(store.Definitions(), vcs[..i], order)
      invariant AllStored(store.triggers, order) && IdsApart(order)
    {
      var found := store.GetTriggersForCondition(vcs[i].condition);
      ExistingStored(store.Definitions(), Listed(store.conditionTriggers, vcs[i].condition));
      var more := AddMissing(store.triggers, order, found);
      ReachedNext(store.Definitions(), vcs, i, order, more);
      order := more;
    }
    assert vcs[..|vcs|] == vcs;
  }

  /** The candidates whose claim was made. */
  function Chosen(xs: seq<Candidate>, flags: seq<bool>): seq<Candidate> {
    if |xs| == 0 || |flags| == 0 then []
    else (if flags[0] then [xs[0]] else []) + Chosen(xs[1..], flags[1..])
  }

  /** Candidate `k` makes its claim: its run was free, and no earlier candidate has the same run. */
  predicate MakesClaim(claims: set<RunId>, xs: seq<Candidate>, k: nat)
    requires k < |xs|
  {
    xs[k].run !in claims && forall m | 0 <= m < k :: xs[m].run != xs[k].run
  }

  /** `at` lists, in order, the positions of the candidates that make their claim. */
  ghost predicate ClaimsAt(claims: set<RunId>, xs: seq<Candidate>, at: seq<nat>) {
    && (forall i | 0 <= i < |at| :: at[i] < |xs| && MakesClaim(claims, xs, at[i]))
    && (forall i, j | 0 <= i < j < |at| :: at[i] < at[j])
    && (forall k | 0 <= k < |xs| && MakesClaim(claims, xs, k) :: k in at)
  }

  /** Reported are, in order, exactly the candidates that make their claim. */
  ghost predicate ReportsClaims(claims: set<RunId>, xs: seq<Candidate>, reported: seq<Candidate>) {
    exists at: seq<nat> :: ReportedAt(claims, xs, reported, at)
  }

  ghost predicate ReportedAt(claims: set<RunId>, xs: seq<Candidate>, reported: seq<Candidate>, at: seq<nat>) {
    && ClaimsAt(claims, xs, at)
    && |reported| == |at| && forall i | 0 <= i < |at| :: reported[i] == xs[at[i]]
  }

  /** The places of the set flags, in order, and the candidates there. */
  ghost predicate Picks(xs: seq<Candidate>, flags: seq<bool>, ys: seq<Candidate>, at: seq<nat>)
    requires |xs| == |flags|
  {
    && |at| == |ys|
    && (forall i | 0 <= i < |at| :: at[i] < |xs| && flags[at[i]] && ys[i] == xs[at[i]])
    && (forall i, j | 0 <= i < j < |at| :: at[i] < at[j])
    && (forall k | 0 <= k < |xs| && flags[k] :: k in at)
  }

  function Shift(at: seq<nat>): seq<nat> { seq(|at|, i requires 0 <= i < |at| => at[i] + 1) }

  lemma ShiftHolds(flags: seq<bool>, at: seq<nat>, k: nat)
    requires 1 <= k < |flags| && flags[k] && forall m | 0 <= m < |flags[1..]| && flags[1..][m] :: m in at
    ensures k in Shift(at)
  {
    assert flags[1..][k - 1];
    var i :| 0 <= i < |at| && at[i] == k - 1;
    assert Shift(at)[i] == k;
  }

  lemma ShiftSkips(xs: seq<Candidate>, flags: seq<bool>, ys: seq<Candidate>, at: seq<nat>)
    requires xs != [] && |xs| == |flags| && Picks(xs[1..], flags[1..], ys, at) && !flags[0]
    ensures Picks(xs, flags, ys, Shift(at))
  {
    forall k | 0 <= k < |xs| && flags[k] ensures k in Shift(at) { ShiftHolds(flags, at, k); }
  }

  lemma ShiftTakes(xs: seq<Candidate>, flags: seq<bool>, ys: seq<Candidate>, at: seq<nat>)
    requires xs != [] && |xs| == |flags| && Picks(xs[1..], flags[1..], ys, at) && flags[0]
    ensures Picks(xs, flags, [xs[0]] + ys, [0] + Shift(at))
  {
    var now, places := [xs[0]] + ys, [0] + Shift(at);
    forall i | 0 <= i < |places| ensures places[i] < |xs| && flags[places[i]] && now[i] == xs[places[i]] {
      if i > 0 { assert places[i] == at[i - 1] + 1 && now[i] == ys[i - 1]; }
    }
    forall k | 0 <= k < |xs| && flags[k] ensures k in places {
      if k > 0 { ShiftHolds(flags, at, k); }
    }
    ShiftRises(at);
  }

  lemma ShiftRises(at: seq<nat>)
    requires forall i, j | 0 <= i < j < |at| :: at[i] < at[j]
    ensures var places := [0] + Shift(at); forall i, j | 0 <= i < j < |places| :: places[i] < places[j]
  {
    var places := [0] + Shift(at);
    forall i, j | 0 <= i < j < |places| ensures places[i] < places[j] {
      if i > 0 { assert places[i] == at[i - 1] + 1; }
      assert places[j] == at[j - 1] + 1;
    }
  }

  lemma {:induction false} ChosenPicks(xs: seq<Candidate>, flags: seq<bool>) returns (at: seq<nat>)
    requires |xs| == |flags|
    ensures Picks(xs, flags, Chosen(xs, flags), at)
  {
    at := [];
    if xs != [] {
      var ys := Chosen(xs[1..], flags[1..]);
      at := ChosenPicks(xs[1..], flags[1..]);
      if flags[0] {
        ShiftTakes(xs, flags, ys, at);
        at := [0] + Shift(at);
      } else {
        ShiftSkips(xs, flags, ys, at);
        assert [] + ys == ys;
        at := Shift(at);
      }
    }
  }

  /** The claim flags of a plan, candidate by candidate. */
  lemma PlanFlags(o: Outbox, derive: RunId -> InvocationId, xs: seq<Candidate>, now: int, k: nat)
    requires k < |xs|
    ensures var flags := Firsts(o, PlannedRuns(derive, xs, now));
            |flags| == |xs| && (flags[k] <==> MakesClaim(o.claims, xs, k))
  {
    var records := PlannedRuns(derive, xs, now);
    PlannedRunIds(derive, xs, now);
    FirstsMeaning(o, records, k);
    FlagOf(o.claims, records, xs, k);
  }

  lemma PlannedRunIds(derive: RunId -> InvocationId, xs: seq<Candidate>, now: int)
    ensures var records := PlannedRuns(derive, xs, now);
            |records| == |xs| && forall m | 0 <= m < |xs| :: records[m].run == xs[m].run
  {
  }

  lemma FlagOf(claims: set<RunId>, records: seq<Record>, xs: seq<Candidate>, k: nat)
    requires |records| == |xs| && (forall m | 0 <= m < |xs| :: records[m].run == xs[m].run) && k < |xs|
    ensures (records[k].run !in claims && forall m | 0 <= m < k :: records[m].run != records[k].run) <==>
              MakesClaim(claims, xs, k)
  {
    if MakesClaim(claims, xs, k) {
      forall m | 0 <= m < k ensures records[m].run != records[k].run { assert xs[m].run != xs[k].run; }
    } else if xs[k].run !in claims {
      var m :| 0 <= m < k && xs[m].run == xs[k].run;
      assert records[m].run == records[k].run;
    }
  }

  lemma ChosenReportsClaims(o: Outbox, derive: RunId -> InvocationId, xs: seq<Candidate>, now: int)
    ensures ReportsClaims(o.claims, xs, Chosen(xs, Firsts(o, PlannedRuns(derive, xs, now))))
  {
    var flags := Firsts(o, PlannedRuns(derive, xs, now));
    FirstsLength(o, PlannedRuns(derive, xs, now));
    forall k | 0 <= k < |xs| ensures flags[k] <==> MakesClaim(o.claims, xs, k) { PlanFlags(o, derive, xs, now, k); }
    var at := ChosenPicks(xs, flags);
    assert ReportedAt(o.claims, xs, Chosen(xs, flags), at);
  }

  /** A run is reported exactly when some candidate for it finds it free, and then once. */
  lemma ReportedRuns(claims: set<RunId>, xs: seq<Candidate>, reported: seq<Candidate>)
    requires ReportsClaims(claims, xs, reported)
    ensures forall i, j | 0 <= i < j < |reported| :: reported[i].run != reported[j].run
    ensures forall x | x in reported :: x in xs && x.run !in claims
    ensures forall x | x in xs && x.run !in claims :: exists y | y in reported :: y.run == x.run
  {
    var at: seq<nat> :| ReportedAt(claims, xs, reported, at);
    forall i, j | 0 <= i < j < |reported| ensures reported[i].run != reported[j].run {
      assert MakesClaim(claims, xs, at[j]);
    }
    forall x | x in xs && x.run !in claims ensures exists y | y in reported :: y.run == x.run {
      var k := FirstCandidate(xs, x.run);
      assert MakesClaim(claims, xs, k);
      var i :| 0 <= i < |at| && at[i] == k;
      assert reported[i] in reported;
    }
    forall x | x in reported ensures x in xs && x.run !in claims {
      var i :| 0 <= i < |reported| && reported[i] == x;
      assert MakesClaim(claims, xs, at[i]);
    }
  }

  lemma FirstCandidate(xs: seq<Candidate>, run: RunId) returns (k: nat)
    requires exists x | x in xs :: x.run == run
    ensures k < |xs| && xs[k].run == run && forall m | 0 <= m < k :: xs[m].run != run
  {
    var x :| x in xs && x.run == run;
    var j :| 0 <= j < |xs| && xs[j] == x;
    k := 0;
    while xs[k].run != run
      invariant k <= j && forall m | 0 <= m < k :: xs[m].run != run
      decreases j - k
    {
      k := k + 1;
    }
  }

  /** Two evaluations, one after the other on a store that forgets no claim: no run is reported by both. */
  lemma NoRunReportedTwice(
    o: Outbox, derive: RunId -> InvocationId, first: seq<Candidate>, now: int, consumed: seq<ValidId>,
    later: set<RunId>, second: seq<Candidate>, a: seq<Candidate>, b: seq<Candidate>)
    requires ClaimBatch(o, PlannedRuns(derive, first, now), consumed).claims <= later
    requires ReportsClaims(o.claims, first, a) && ReportsClaims(later, second, b)
    ensures forall x, y | x in a && y in b :: x.run != y.run
  {
    var records := PlannedRuns(derive, first, now);
    ClaimAllAnywhere(o, records);
    ReportedRuns(o.claims, first, a);
    ReportedRuns(later, second, b);
    forall x | x in a ensures x.run in later {
      var k :| 0 <= k < |first| && first[k] == x;
      assert records[k].run == x.run;
    }
  }

  /** `evaluate_trigger_runs` on the in-memory store. `vcs` is the store's pending valid conditions in
      the order its map yields them. Reported are the candidates that made their claim. */
  method EvaluateTriggerRuns(store: MemTriggerStore, derive: RunId -> InvocationId, vcs: seq<ValidCondition>, now: int)
    returns (order: seq<Trigger>, consumed: seq<ValidId>, reported: seq<Candidate>)
    requires Indexed(store.Definitions())
    requires forall v :: v in vcs <==> v.id in store.validConditions && store.validConditions[v.id] == v
    modifies store`claims, store`runs, store`validConditions
    ensures Reached(old(store.Definitions()), vcs, order) && IdsApart(order)
    ensures forall v :: v in consumed <==> v in Consumed(order, vcs)
    ensures store.Box() == ClaimBatch(old(store.Box()), PlannedRuns(derive, Candidates(order, vcs), now), consumed)
    ensures ReportsClaims(old(store.Box()).claims, Candidates(order, vcs), reported)
  {
    order := FindTriggers(store, vcs);
    var candidates, ids := PlanRuns(order, vcs);
    consumed := ToSeq(ids);
    if candidates == [] {
      NothingConsumed(order, vcs);
      assert PlannedRuns(derive, candidates, now) == [];
      assert Clear(store.Box(), []) == store.Box();
      assert ReportedAt(store.Box().claims, candidates, [], []);
      return order, consumed, [];
    }
    var records := PlannedRuns(derive, candidates, now);
    var claimed := store.ClaimTriggerRunsWithRecords(records, consumed, now);
    reported := Chosen(candidates, claimed);
    ChosenReportsClaims(old(store.Box()), derive, candidates, now);
  }

  /** No candidate, no consumption: a condition is consumed only by a trigger that fires. */
  lemma {:induction false} NothingConsumed(ts: seq<Trigger>, vcs: seq<ValidCondition>)
    requires Candidates(ts, vcs) == []
    ensures Consumed(ts, vcs) == {}
  {
    if ts != [] {
      var t := ts[|ts| - 1];
      NothingConsumed(ts[..|ts| - 1], vcs);
      assert CandidatesOf(t, vcs) == [];
      forall v | v in vcs && Consumes(t, vcs, v) ensures false {
        if t.logic == Or { OrPlans(t, vcs, v); }
      }
    }
  }

  lemma OrPlans(t: Trigger, vcs: seq<ValidCondition>, v: ValidCondition)
    requires t.logic == Or && v in vcs && v.condition in t.conditions
    ensures OrCandidate(t, v) in CandidatesOf(t, vcs)
  {
    OrCandidatesMeaning(t, t.conditions, vcs);
  }

  /** A run is planned for every OR trigger of the evaluation that lists a pending condition. */
  lemma OrIsPlanned(ts: seq<Trigger>, vcs: seq<ValidCondition>, v: ValidCondition, t: Trigger)
    requires v in vcs && t in ts && t.logic == Or && v.condition in t.conditions
    ensures OrCandidate(t, v) in Candidates(ts, vcs)
  {
    PlansEach(ts, vcs);
    OrPlans(t, vcs, v);
  }

  /** A run is planned for every AND trigger of the evaluation that is satisfied. */
  lemma AndIsPlanned(ts: seq<Trigger>, vcs: seq<ValidCondition>, t: Trigger)
    requires t in ts && t.logic == And && Satisfied(t, vcs)
    ensures AndCandidate(t, vcs) in Candidates(ts, vcs)
  {
    PlansEach(ts, vcs);
    assert AndCandidate(t, vcs) in CandidatesOf(t, vcs);
  }

  /** A pending valid condition is consumed only by a trigger of the evaluation that lists it and fires. */
  lemma {:induction false} ConsumedHasTrigger(ts: seq<Trigger>, vcs: seq<ValidCondition>, v: ValidCondition)
    requires v in vcs && v.id in Consumed(ts, vcs)
    requires forall a, b | a in vcs && b in vcs && a.id == b.id :: a == b
    ensures exists t | t in ts :: Consumes(t, vcs, v)
  {
    var n := |ts| - 1;
    if v.id in ConsumedBy(ts[n], vcs) {
      assert ts[n] in ts;
    } else {
      ConsumedHasTrigger(ts[..n], vcs, v);
    }
  }

  /** All of the trigger's conditions have a pending valid condition. */
  ghost predicate AllPending(t: Trigger, vcs: seq<ValidCondition>) {
    forall c | c in t.conditions :: exists w | w in vcs :: w.condition == c
  }

  /** Exactly what an evaluation consumes: a pending condition that an OR trigger read lists, or an AND
      trigger read whose conditions are all pending. */
  lemma {:induction false} ConsumedExactly(ts: seq<Trigger>, vcs: seq<ValidCondition>, v: ValidCondition)
    requires v in vcs && forall a, b | a in vcs && b in vcs && a.id == b.id :: a == b
    ensures v.id in Consumed(ts, vcs) <==>
              exists t | t in ts :: v.condition in t.conditions && (t.logic == Or || AllPending(t, vcs))
  {
    if ts != [] {
      var n := |ts| - 1;
      ConsumedExactly(ts[..n], vcs, v);
      ConsumesMeaning(ts[n], vcs, v);
      assert ts == ts[..n] + [ts[n]];
    }
  }

  lemma ConsumesMeaning(t: Trigger, vcs: seq<ValidCondition>, v: ValidCondition)
    requires v in vcs && forall a, b | a in vcs && b in vcs && a.id == b.id :: a == b
    ensures v.id in ConsumedBy(t, vcs) <==> v.condition in t.conditions && (t.logic == Or || AllPending(t, vcs))
  {
    SatisfiedMeaning(t, vcs);
    if v.id in ConsumedBy(t, vcs) {
      var w :| w in vcs && Consumes(t, vcs, w) && w.id == v.id;
      assert w == v;
    }
  }

  lemma SatisfiedMeaning(t: Trigger, vcs: seq<ValidCondition>)
    ensures Satisfied(t, vcs) <==> AllPending(t, vcs)
  {
    forall c | c in t.conditions ensures OfCondition(vcs, c) != [] <==> exists w | w in vcs :: w.condition == c {
      OfConditionMeaning(vcs, c);
      if OfCondition(vcs, c) != [] { assert OfCondition(vcs, c)[0] in OfCondition(vcs, c); }
    }
  }

  lemma {:induction false} PlansEach(ts: seq<Trigger>, vcs: seq<ValidCondition>)
    ensures forall t, x | t in ts && x in CandidatesOf(t, vcs) :: x in Candidates(ts, vcs)
  {
    if ts != [] {
      PlansEach(ts[..|ts| - 1], vcs);
      assert forall t :: t in ts <==> t in ts[..|ts| - 1] || t == ts[|ts| - 1];
    }
  }

  // -- what a planned record says -----------------------------------------

  /** The condition is the first pending one of its kind. */
  ghost predicate IsFirstPending(vcs: seq<ValidCondition>, v: ValidCondition) {
    exists k :: 0 <= k < |vcs| && vcs[k] == v && forall m | 0 <= m < k :: vcs[m].condition != v.condition
  }

  lemma {:induction false} FirstOfCondition(vcs: seq<ValidCondition>, c: ConditionId)
    requires OfCondition(vcs, c) != []
    ensures OfCondition(vcs, c)[0].condition == c && IsFirstPending(vcs, OfCondition(vcs, c)[0])
  {
    var n := |vcs| - 1;
    if OfCondition(vcs[..n], c) != [] {
      FirstOfCondition(vcs[..n], c);
      var v := OfCondition(vcs[..n], c)[0];
      var k :| 0 <= k < n && vcs[..n][k] == v && forall m | 0 <= m < k :: vcs[..n][m].condition != v.condition;
      assert forall m | 0 <= m < k :: vcs[m] == vcs[..n][m];
      assert vcs[k] == v;
    } else {
      OfConditionMeaning(vcs[..n], c);
      assert forall m | 0 <= m < n :: vcs[m] == vcs[..n][m] && vcs[m] in vcs[..n];
      assert vcs[n] == OfCondition(vcs, c)[0];
    }
  }

  lemma {:induction false} SelectMeaning(cs: seq<ConditionId>, vcs: seq<ValidCondition>)
    requires forall c | c in cs :: OfCondition(vcs, c) != []
    ensures var s := Select(cs, vcs);
            |s| == |cs| && forall i | 0 <= i < |cs| :: s[i].condition == cs[i] && IsFirstPending(vcs, s[i])
  {
    if cs != [] {
      var n := |cs| - 1;
      SelectMeaning(cs[..n], vcs);
      FirstOfCondition(vcs, cs[n]);
    }
  }

  /** The participants are pending: for an AND trigger the first pending one of each listed condition,
      in order, for an OR trigger one of a listed condition. */
  ghost predicate Participate(t: Trigger, vcs: seq<ValidCondition>, ps: seq<ValidCondition>) {
    && (forall p | p in ps :: p in vcs)
    && (if t.logic == And then
          && |ps| == |t.conditions|
          && forall i | 0 <= i < |ps| :: ps[i].condition == t.conditions[i] && IsFirstPending(vcs, ps[i])
        else |ps| == 1 && ps[0].condition in t.conditions)
  }

  ghost predicate Describes(t: Trigger, vcs: seq<ValidCondition>, x: Candidate) {
    x.trigger == t && x.run == RunId(t.id, Ids(x.selected)) && Participate(t, vcs, x.selected)
  }

  lemma {:induction false} OrDescribed(t: Trigger, cs: seq<ConditionId>, vcs: seq<ValidCondition>, x: Candidate)
    requires t.logic == Or && (forall c | c in cs :: c in t.conditions) && x in OrCandidates(t, cs, vcs)
    ensures Describes(t, vcs, x)
  {
    var n := |cs| - 1;
    if x in OrCandidates(t, cs[..n], vcs) {
      OrDescribed(t, cs[..n], vcs, x);
    } else {
      OfConditionMeaning(vcs, cs[n]);
      var i :| 0 <= i < |OfCondition(vcs, cs[n])| && x == OrCandidate(t, OfCondition(vcs, cs[n])[i]);
      assert OfCondition(vcs, cs[n])[i] in OfCondition(vcs, cs[n]);
      assert x.selected[..0] == [];
    }
  }

  lemma {:induction false} CandidateDescribed(ts: seq<Trigger>, vcs: seq<ValidCondition>, x: Candidate)
    requires x in Candidates(ts, vcs)
    ensures x.trigger in ts && Describes(x.trigger, vcs, x)
  {
    var n := |ts| - 1;
    if x in Candidates(ts[..n], vcs) {
      CandidateDescribed(ts[..n], vcs, x);
    } else if ts[n].logic == And {
      SelectMeaning(ts[n].conditions, vcs);
    } else {
      OrDescribed(ts[n], ts[n].conditions, vcs, x);
    }
  }

  /** Every planned record is pending under the derived invocation of its run id, carries the task,
      logic and arguments of a trigger read, and names as its run that trigger with exactly the ids
      of its participants, which are pending conditions of that trigger. */
  lemma RecordIsFaithful(derive: RunId -> InvocationId, ts: seq<Trigger>, vcs: seq<ValidCondition>, now: int, r: Record)
    requires r in PlannedRuns(derive, Candidates(ts, vcs), now)
    ensures r.planned == Some(derive(r.run)) && r.triggered == None && r.run == RunId(r.trigger, Ids(r.participants))
    ensures r.claimedAt == now && r.executedAt == None
    ensures exists t | t in ts :: r.trigger == t.id && r.task == t.task && r.logic == t.logic &&
                                  r.arguments == t.arguments && Participate(t, vcs, r.participants)
  {
    var xs := Candidates(ts, vcs);
    var i :| 0 <= i < |xs| && r == PlannedRun(derive, xs[i], now);
    CandidateDescribed(ts, vcs, xs[i]);
  }
}
