/**
 Trigger definitions and the inverted index from condition to triggers.
 */
module TriggerRegistry {

  import opened Wrappers
  import opened TriggerOutbox

  /** The ids listed under each condition. */
  type Index = map<ConditionId, seq<TriggerId>>

  datatype Registry = Registry(triggers: map<TriggerId, Trigger>, index: Index)

  const EMPTY := Registry(map[], map[])

  function Listed(index: Index, c: ConditionId): seq<TriggerId> {
    if c in index then index[c] else []
  }

  function AddEntry(index: Index, c: ConditionId, t: TriggerId): Index {
    var ids := Listed(index, c);
    index[c := if t in ids then ids else ids + [t]]
  }

  function AddEntries(index: Index, cs: seq<ConditionId>, t: TriggerId): Index {
    if cs == [] then index else AddEntry(AddEntries(index, cs[..|cs| - 1], t), cs[|cs| - 1], t)
  }

  function Register(reg: Registry, trigger: Trigger): Registry {
    Registry(reg.triggers[trigger.id := trigger], AddEntries(reg.index, trigger.conditions, trigger.id))
  }

  function Without(ids: seq<TriggerId>, t: TriggerId): seq<TriggerId> {
    if ids == [] then []
    else Without(ids[..|ids| - 1], t) + if ids[|ids| - 1] == t then [] else [ids[|ids| - 1]]
  }

  function DropEntries(index: Index, cs: seq<ConditionId>, t: TriggerId): Index {
    if cs == [] then index
    else
      var before := DropEntries(index, cs[..|cs| - 1], t);
      var c := cs[|cs| - 1];
      if c in before then before[c := Without(before[c], t)] else before
  }

  /** Removing one definition, index entries of its current condition list included. */
  function Remove(reg: Registry, t: TriggerId): Registry
    requires t in reg.triggers
  {
    Registry(map k | k in reg.triggers && k != t :: reg.triggers[k],
             DropEntries(reg.index, reg.triggers[t].conditions, t))
  }

  // -- what the index guarantees ------------------------------------------

  ghost predicate NoRepeats(index: Index) {
    forall c | c in index :: forall i, j | 0 <= i < j < |index[c]| :: index[c][i] != index[c][j]
  }

  /** Every definition is stored under its own id and listed under each of its conditions, once. */
  ghost predicate Indexed(reg: Registry) {
    && (forall t | t in reg.triggers :: reg.triggers[t].id == t)
    && (forall t, c | t in reg.triggers && c in reg.triggers[t].conditions :: t in Listed(reg.index, c))
    && NoRepeats(reg.index)
  }

  lemma {:induction false} AddEntriesLists(index: Index, cs: seq<ConditionId>, t: TriggerId)
    requires NoRepeats(index)
    ensures NoRepeats(AddEntries(index, cs, t))
    ensures forall c, u :: u in Listed(AddEntries(index, cs, t), c) <==> u in Listed(index, c) || (u == t && c in cs)
  {
    if cs != [] {
      var n := |cs| - 1;
      AddEntriesLists(index, cs[..n], t);
      assert forall c :: c in cs <==> c in cs[..n] || c == cs[n];
      var before := AddEntries(index, cs[..n], t);
      forall c, u
        ensures u in Listed(AddEntry(before, cs[n], t), c) <==> u in Listed(before, c) || (u == t && c == cs[n])
      {
      }
    }
  }

  lemma {:induction false} WithoutMeaning(ids: seq<TriggerId>, t: TriggerId)
    requires forall i, j | 0 <= i < j < |ids| :: ids[i] != ids[j]
    ensures forall u :: u in Without(ids, t) <==> u in ids && u != t
    ensures forall i, j | 0 <= i < j < |Without(ids, t)| :: Without(ids, t)[i] != Without(ids, t)[j]
  {
    if ids != [] {
      var n := |ids| - 1;
      WithoutMeaning(ids[..n], t);
      assert ids == ids[..n] + [ids[n]];
      assert ids[n] !in ids[..n];
    }
  }

  lemma {:induction false} DropEntriesLists(index: Index, cs: seq<ConditionId>, t: TriggerId)
    requires NoRepeats(index)
    ensures NoRepeats(DropEntries(index, cs, t))
    ensures DropEntries(index, cs, t).Keys == index.Keys
    ensures forall c, u :: u in Listed(DropEntries(index, cs, t), c) <==> u in Listed(index, c) && !(u == t && c in cs)
  {
    if cs != [] {
      var n := |cs| - 1;
      DropEntriesLists(index, cs[..n], t);
      assert forall c :: c in cs <==> c in cs[..n] || c == cs[n];
      var before := DropEntries(index, cs[..n], t);
      if cs[n] in before { WithoutMeaning(before[cs[n]], t); }
    }
  }

  lemma RegisterIndexed(reg: Registry, trigger: Trigger)
    requires Indexed(reg)
    ensures Indexed(Register(reg, trigger))
  {
    AddEntriesLists(reg.index, trigger.conditions, trigger.id);
  }

  lemma RemoveIndexed(reg: Registry, t: TriggerId)
    requires Indexed(reg) && t in reg.triggers
    ensures Indexed(Remove(reg, t))
  {
    DropEntriesLists(reg.index, reg.triggers[t].conditions, t);
  }

  /** Some definitions are gone, with exactly the index entries of their condition lists. */
  ghost predicate Swept(was: Registry, now: Registry) {
    && (forall t | t in now.triggers :: t in was.triggers && now.triggers[t] == was.triggers[t])
    && (forall c, u :: SweptEntry(was, now, c, u))
  }

  ghost predicate SweptEntry(was: Registry, now: Registry, c: ConditionId, u: TriggerId) {
    u in Listed(now.index, c) <==>
      && u in Listed(was.index, c)
      && !(u in was.triggers && u !in now.triggers && c in was.triggers[u].conditions)
  }

  lemma RemoveSweeps(was: Registry, reg: Registry, t: TriggerId)
    requires Indexed(reg) && Swept(was, reg) && t in reg.triggers
    ensures Swept(was, Remove(reg, t))
  {
    DropEntriesLists(reg.index, reg.triggers[t].conditions, t);
    var now := Remove(reg, t);
    forall c, u ensures SweptEntry(was, now, c, u) {
      assert SweptEntry(was, reg, c, u);
      assert u in Listed(now.index, c) <==> u in Listed(reg.index, c) && !(u == t && c in reg.triggers[t].conditions);
      assert u in now.triggers <==> u in reg.triggers && u != t;
    }
  }

  /** The definitions of the ids that have one, in order. */
  function Existing(triggers: map<TriggerId, Trigger>, ids: seq<TriggerId>): seq<Trigger> {
    if ids == [] then []
    else
      var last := ids[|ids| - 1];
      Existing(triggers, ids[..|ids| - 1]) + if last in triggers then [triggers[last]] else []
  }

  lemma {:induction false} ExistingMeaning(triggers: map<TriggerId, Trigger>, ids: seq<TriggerId>)
    ensures forall t :: t in Existing(triggers, ids) <==> exists u | u in ids :: u in triggers && triggers[u] == t
  {
    if ids != [] {
      var n := |ids| - 1;
      ExistingMeaning(triggers, ids[..n]);
      assert ids == ids[..n] + [ids[n]];
    }
  }

  // -- the in-memory store ------------------------------------------------

  /** `MemTriggerStore`: one mutex around these maps; each method is one critical section. */
  class MemTriggerStore {
    var triggers: map<TriggerId, Trigger>
    var conditionTriggers: Index
    var validConditions: map<ValidId, ValidCondition>
    var cronExecutions: map<ConditionId, int>
    var claims: map<RunId, int>
    var runs: map<RunId, Record>

    ghost function Definitions(): Registry reads this { Registry(triggers, conditionTriggers) }

    ghost function Box(): Outbox reads this { Outbox(claims.Keys, runs, validConditions) }

    constructor ()
      ensures Definitions() == EMPTY && Indexed(Definitions())
      ensures Box() == Outbox({}, map[], map[]) && cronExecutions == map[]
    {
      triggers, conditionTriggers, validConditions := map[], map[], map[];
      cronExecutions, claims, runs := map[], map[], map[];
    }

    method RegisterTrigger(trigger: Trigger)
      requires Indexed(Definitions())
      modifies this`triggers, this`conditionTriggers
      ensures Definitions() == Register(old(Definitions()), trigger)
      ensures Indexed(Definitions())
    {
      ghost var was := Definitions();
      triggers := triggers[trigger.id := trigger];
      for i := 0 to |trigger.conditions|
        invariant triggers == was.triggers[trigger.id := trigger]
        invariant conditionTriggers == AddEntries(was.index, trigger.conditions[..i], trigger.id)
      {
        var c := trigger.conditions[i];
        var ids := if c in conditionTriggers then conditionTriggers[c] else [];
        if trigger.id !in ids { ids := ids + [trigger.id]; }
        conditionTriggers := conditionTriggers[c := ids];
        assert trigger.conditions[..i + 1][..i] == trigger.conditions[..i];
      }
      assert trigger.conditions[..|trigger.conditions|] == trigger.conditions;
      RegisterIndexed(was, trigger);
    }

    /** The definitions listed under a condition, in list order, that still exist. */
    method GetTriggersForCondition(c: ConditionId) returns (found: seq<Trigger>)
      ensures found == Existing(triggers, Listed(conditionTriggers, c))
    {
      found := [];
      var ids := if c in conditionTriggers then conditionTriggers[c] else [];
      for i := 0 to |ids|
        invariant found == Existing(triggers, ids[..i])
      {
        assert ids[..i + 1][..i] == ids[..i];
        if ids[i] in triggers { found := found + [triggers[ids[i]]]; }
      }
      assert ids[..|ids|] == ids;
    }

    method RemoveTrigger(t: TriggerId)
      requires t in triggers
      modifies this`triggers, this`conditionTriggers
      ensures Definitions() == Remove(old(Definitions()), t)
    {
      ghost var was := Definitions();
      var trigger := triggers[t];
      triggers := map k | k in triggers && k != t :: triggers[k];
      for i := 0 to |trigger.conditions|
        invariant triggers == Remove(was, t).triggers
        invariant conditionTriggers == DropEntries(was.index, trigger.conditions[..i], t)
      {
        var c := trigger.conditions[i];
        if c in conditionTriggers {
          conditionTriggers := conditionTriggers[c := Without(conditionTriggers[c], t)];
        }
        assert trigger.conditions[..i + 1][..i] == trigger.conditions[..i];
      }
      assert trigger.conditions[..|trigger.conditions|] == trigger.conditions;
    }

    /** Removes the definitions of a task one by one, in any order: they and exactly the index entries
        of their current condition lists are gone. */
    method RemoveTriggersForTask(task: TaskId) returns (count: nat)
      requires Indexed(Definitions())
      modifies this`triggers, this`conditionTriggers
      ensures Indexed(Definitions())
      ensures Swept(old(Definitions()), Definitions())
      ensures triggers.Keys == set t | t in old(triggers) && old(triggers)[t].task != task
      ensures count == |set t | t in old(triggers) && old(triggers)[t].task == task|
    {
      ghost var was := Definitions();
      var remaining := set t | t in triggers && triggers[t].task == task;
      count := |remaining|;
      while remaining != {}
        invariant Indexed(Definitions()) && Swept(was, Definitions())
        invariant remaining == set t | t in triggers && triggers[t].task == task
        invariant forall t | t in was.triggers && was.triggers[t].task != task :: t in triggers
        decreases |remaining|
      {
        var t :| t in remaining;
        ghost var reg := Definitions();
        RemoveTrigger(t);
        RemoveIndexed(reg, t);
        RemoveSweeps(was, reg, t);
        remaining := remaining - {t};
      }
      assert forall t | t in triggers && triggers[t].task == task :: t in remaining;
    }

    method RecordValidCondition(vc: ValidCondition)
      modifies this`validConditions
      ensures Box() == old(Box()).(valid := old(validConditions)[vc.id := vc])
    {
      validConditions := validConditions[vc.id := vc];
    }

    method ClearValidConditions(ids: seq<ValidId>)
      modifies this`validConditions
      ensures Box() == Clear(old(Box()), ids)
    {
      ghost var was := validConditions;
      for i := 0 to |ids|
        invariant validConditions == map v | v in was && v !in ids[..i] :: was[v]
      {
        validConditions := map v | v in validConditions && v != ids[i] :: validConditions[v];
        assert forall v :: v in ids[..i + 1] <==> v in ids[..i] || v == ids[i];
      }
      assert ids[..|ids|] == ids;
    }

    method ClaimTriggerRun(run: RunId, now: int) returns (first: bool)
      modifies this`claims
      ensures first <==> run !in old(claims)
      ensures Box() == Claim(old(Box()), run)
    {
      first := run !in claims;
      if first { claims := claims[run := now]; }
    }

    method StoreTriggerRun(record: Record)
      modifies this`runs
      ensures Box() == old(Box()).(runs := old(runs)[record.run := record])
    {
      runs := runs[record.run := record];
    }

    method GetTriggerRun(run: RunId) returns (found: Option<Record>)
      ensures found == if run in runs then Some(runs[run]) else None
    {
      found := if run in runs then Some(runs[run]) else None;
    }

    /** Stores the record of a run that was claimed first, or that has none. */
    method StoreIfNeeded(record: Record, first: bool)
      modifies this`runs
      ensures Box() == StoreIf(old(Box()), record, first)
    {
      if first || record.run !in runs { runs := runs[record.run := record]; }
    }

    /** The atomic override: the whole batch under one lock. */
    method ClaimTriggerRunsWithRecords(records: seq<Record>, consumed: seq<ValidId>, now: int)
      returns (claimed: seq<bool>)
      modifies this`claims, this`runs, this`validConditions
      ensures Box() == ClaimBatch(old(Box()), records, consumed)
      ensures claimed == Firsts(old(Box()), records)
    {
      ghost var was := Box();
      claimed := [];
      for i := 0 to |records|
        invariant Box() == ClaimAll(was, records[..i])
        invariant claimed == Firsts(was, records[..i])
      {
        TakeLast(was, records, i);
        var first := ClaimTriggerRun(records[i].run, now);
        StoreIfNeeded(records[i], first);
        claimed := claimed + [first];
      }
      assert records[..|records|] == records;
      ClearValidConditions(consumed);
    }
  }

  /** The default `claim_trigger_runs_with_records`: an ordered sequence of store calls. A failure
      injected at a boundary ends it there; a run without failure does what the one-lock batch does. */
  method ClaimInOrder(
    store: MemTriggerStore, records: seq<Record>, consumed: seq<ValidId>, now: int, fails: Option<CrashPoint>)
    returns (claimed: Option<seq<bool>>)
    modifies store`claims, store`runs, store`validConditions
    ensures fails.None? || fails.value.index >= |records| ==>
              && store.Box() == ClaimBatch(old(store.Box()), records, consumed)
              && claimed == Some(Firsts(old(store.Box()), records))
    ensures fails.Some? && fails.value.index < |records| ==>
              && store.Box() == Crash(old(store.Box()), records, fails.value)
              && claimed == None
  {
    ghost var was := store.Box();
    var flags := [];
    for i := 0 to |records|
      invariant store.Box() == ClaimAll(was, records[..i])
      invariant flags == Firsts(was, records[..i])
      invariant fails.Some? ==> i <= fails.value.index || fails.value.index >= |records|
    {
      TakeLast(was, records, i);
      var first := store.ClaimTriggerRun(records[i].run, now);
      if fails == Some(AfterClaim(i)) { return None; }
      var missing := true;
      if !first {
        var present := store.GetTriggerRun(records[i].run);
        missing := present.None?;
      }
      if missing { store.StoreTriggerRun(records[i]); }
      assert store.Box() == ClaimOne(ClaimAll(was, records[..i]), records[i]);
      if fails == Some(AfterRecord(i)) { return None; }
      flags := flags + [first];
    }
    assert records[..|records|] == records;
    store.ClearValidConditions(consumed);
    claimed := Some(flags);
  }
}
