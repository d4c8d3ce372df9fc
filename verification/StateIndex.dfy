/**
 The in-memory state backend's derived indexes (by runner, parent and workflow),
 its workflow-run store, and paging. The class keeps ghost logs of what was
 inserted; its validity says each index equals a scan of those logs.
 Identifiers are numbers in the order of their texts.
 */
module StateIndex {

  import opened Wrappers

  type Id = nat

  datatype History = History(invocation: Id, runner: Option<Id>, statusRunner: Option<Id>)
  datatype Invocation = Invocation(id: Id, parent: Option<Id>, workflow: Option<Id>)
  datatype Run = Run(kind: Id, id: Id, parent: Option<Id>)

  // -- scans --------------------------------------------------------------

  function RunnerOf(h: History): Option<Id> { if h.runner.Some? then h.runner else h.statusRunner }

  /** The invocations in the records of one runner, in order, repeats included. */
  function ByRunner(log: seq<History>, runner: Id): seq<Id> {
    if log == [] then []
    else
      var n := |log| - 1;
      ByRunner(log[..n], runner) + if RunnerOf(log[n]) == Some(runner) then [log[n].invocation] else []
  }

  function Distinct(ids: seq<Id>): seq<Id> {
    if ids == [] then []
    else
      var n := |ids| - 1;
      var rest := Distinct(ids[..n]);
      if ids[n] in rest then rest else rest + [ids[n]]
  }

  /** The place where `id` first occurs, or the length of `ids`. */
  function FirstAt(ids: seq<Id>, id: Id): nat {
    if ids == [] || ids[0] == id then 0 else 1 + FirstAt(ids[1..], id)
  }

  ghost predicate NoRepeats(ids: seq<Id>) {
    forall i, j | 0 <= i < j < |ids| :: ids[i] != ids[j]
  }

  lemma {:induction false} FirstAtMeaning(ids: seq<Id>, id: Id)
    ensures FirstAt(ids, id) <= |ids|
    ensures FirstAt(ids, id) < |ids| <==> id in ids
    ensures id in ids ==> ids[FirstAt(ids, id)] == id
    ensures forall i | 0 <= i < FirstAt(ids, id) :: ids[i] != id
  {
    if ids != [] { FirstAtMeaning(ids[1..], id); }
  }

  lemma {:induction false} FirstAtAppend(ids: seq<Id>, last: Id, id: Id)
    ensures FirstAt(ids + [last], id) == if id in ids then FirstAt(ids, id) else |ids| + if last == id then 0 else 1
  {
    if ids != [] {
      assert (ids + [last])[1..] == ids[1..] + [last];
      FirstAtAppend(ids[1..], last, id);
    } else {
      assert (ids + [last])[1..] == [];
    }
  }

  ghost predicate OrderedByFirst(ids: seq<Id>, distinct: seq<Id>) {
    forall i, j | 0 <= i < j < |distinct| :: FirstAt(ids, distinct[i]) < FirstAt(ids, distinct[j])
  }

  /** De-duplication keeps every id once, in the order of first occurrence. */
  lemma {:induction false} DistinctMeaning(ids: seq<Id>)
    ensures NoRepeats(Distinct(ids))
    ensures forall id :: id in Distinct(ids) <==> id in ids
    ensures OrderedByFirst(ids, Distinct(ids))
  {
    if ids != [] {
      var n := |ids| - 1;
      var rest, all := Distinct(ids[..n]), Distinct(ids);
      DistinctMeaning(ids[..n]);
      assert ids == ids[..n] + [ids[n]];
      forall i, j | 0 <= i < j < |all| ensures FirstAt(ids, all[i]) < FirstAt(ids, all[j]) {
        FirstAtAppend(ids[..n], ids[n], all[i]);
        FirstAtAppend(ids[..n], ids[n], all[j]);
        FirstAtMeaning(ids[..n], all[i]);
        assert all[i] == rest[i] && rest[i] in rest;
        if j < |rest| { assert all[j] == rest[j] && rest[j] in rest; }
      }
    }
  }

  /** The first record stored for each workflow run of a kind. */
  function RunsOf(log: seq<Run>, kind: Id): seq<Run> {
    if log == [] then []
    else
      var n := |log| - 1;
      var rest := RunsOf(log[..n], kind);
      if log[n].kind == kind && !HasRun(rest, log[n].id) then rest + [log[n]] else rest
  }

  predicate HasRun(runs: seq<Run>, id: Id) { exists i :: 0 <= i < |runs| && runs[i].id == id }

  ghost predicate DistinctRuns(runs: seq<Run>) {
    forall i, j | 0 <= i < j < |runs| :: runs[i].id != runs[j].id
  }

  /** The first record of its run in the log. */
  ghost predicate IsFirstStored(log: seq<Run>, r: Run) {
    exists k :: 0 <= k < |log| && log[k] == r && forall m | 0 <= m < k :: log[m].kind != r.kind || log[m].id != r.id
  }

  lemma FirstStoredLater(log: seq<Run>, last: Run, r: Run)
    requires IsFirstStored(log, r)
    ensures IsFirstStored(log + [last], r)
  {
    var k :| 0 <= k < |log| && log[k] == r && forall m | 0 <= m < k :: log[m].kind != r.kind || log[m].id != r.id;
    var more := log + [last];
    assert more[k] == r && forall m | 0 <= m < k :: more[m] == log[m];
  }

  lemma FirstStoredNow(log: seq<Run>, last: Run)
    requires forall r | r in log && r.kind == last.kind :: r.id != last.id
    ensures IsFirstStored(log + [last], last)
  {
    var more := log + [last];
    assert more[|log|] == last;
    assert forall m | 0 <= m < |log| :: more[m] == log[m] && log[m] in log;
  }

  lemma HasRunOf(runs: seq<Run>, r: Run, id: Id)
    requires !HasRun(runs, id) && HasRun(runs, r.id)
    ensures r.id != id
  {
  }

  lemma {:induction false} RunsOfMeaning(log: seq<Run>, kind: Id)
    ensures DistinctRuns(RunsOf(log, kind))
    ensures forall r | r in RunsOf(log, kind) :: r in log && r.kind == kind
    ensures forall r | r in log && r.kind == kind :: HasRun(RunsOf(log, kind), r.id)
    ensures forall r | r in RunsOf(log, kind) :: IsFirstStored(log, r)
  {
    if log != [] {
      var n := |log| - 1;
      var rest, all := RunsOf(log[..n], kind), RunsOf(log, kind);
      RunsOfMeaning(log[..n], kind);
      assert log == log[..n] + [log[n]];
      forall r | r in log && r.kind == kind ensures HasRun(all, r.id) {
        if HasRun(rest, r.id) {
          var i :| 0 <= i < |rest| && rest[i].id == r.id;
          assert all[i].id == r.id;
        } else {
          assert all[|rest|].id == r.id;
        }
      }
      forall r | r in all ensures IsFirstStored(log, r) {
        if r in rest {
          FirstStoredLater(log[..n], log[n], r);
        } else {
          forall x | x in log[..n] && x.kind == kind ensures x.id != log[n].id { HasRunOf(rest, x, log[n].id); }
          FirstStoredNow(log[..n], log[n]);
        }
      }
    }
  }

  /** The first upsert of each invocation. */
  function FirstUpserts(log: seq<Invocation>): seq<Invocation> {
    if log == [] then []
    else
      var n := |log| - 1;
      var rest := FirstUpserts(log[..n]);
      if log[n].id in Latest(log[..n]) then rest else rest + [log[n]]
  }

  function Latest(log: seq<Invocation>): map<Id, Invocation> {
    if log == [] then map[] else var n := |log| - 1; Latest(log[..n])[log[n].id := log[n]]
  }

  datatype Link = ByParent | ByWorkflow

  function Target(i: Invocation, link: Link): Option<Id> { if link == ByParent then i.parent else i.workflow }

  function Linked(invocations: seq<Invocation>, link: Link, to: Id): seq<Id> {
    if invocations == [] then []
    else
      var n := |invocations| - 1;
      Linked(invocations[..n], link, to) + if Target(invocations[n], link) == Some(to) then [invocations[n].id] else []
  }

  // -- the backend --------------------------------------------------------

  type Index = map<Id, seq<Id>>

  function Get(index: Index, key: Id): seq<Id> { if key in index then index[key] else [] }

  function GetRuns(runs: map<Id, seq<Run>>, kind: Id): seq<Run> { if kind in runs then runs[kind] else [] }

  function Push(index: Index, key: Option<Id>, id: Id): Index {
    if key.None? then index else index[key.value := Get(index, key.value) + [id]]
  }

  /** Only a first insert is indexed. */
  function PushFirst(known: map<Id, Invocation>, index: Index, key: Option<Id>, id: Id): Index {
    if id in known then index else Push(index, key, id)
  }

  function PushNew(index: Index, key: Option<Id>, id: Id): Index {
    if key.None? then index
    else index[key.value := if id in Get(index, key.value) then Get(index, key.value) else Get(index, key.value) + [id]]
  }

  /** The slice a caller asks for; `skip(offset).take(limit)`. */
  function Page<T>(s: seq<T>, limit: nat, offset: nat): seq<T> {
    if |s| <= offset then [] else if |s| <= offset + limit then s[offset..] else s[offset..offset + limit]
  }

  /** Runner queries read a zero limit as no limit. */
  function RunnerPage(s: seq<Id>, limit: nat, offset: nat): seq<Id> {
    if limit > 0 then Page(s, limit, offset) else Page(s, |s|, offset)
  }

  ghost predicate RunnersIndexed(index: Index, log: seq<History>) {
    forall runner :: Get(index, runner) == Distinct(ByRunner(log, runner))
  }

  ghost predicate Links(index: Index, firsts: seq<Invocation>, link: Link) {
    forall to :: Get(index, to) == Linked(firsts, link, to)
  }

  ghost predicate LinksIndexed(index: Index, log: seq<Invocation>, link: Link) {
    Links(index, FirstUpserts(log), link)
  }

  ghost predicate RunsIndexed(runs: map<Id, seq<Run>>, log: seq<Run>) {
    forall kind :: GetRuns(runs, kind) == RunsOf(log, kind)
  }

  lemma AddedHistory(index: Index, log: seq<History>, h: History)
    requires RunnersIndexed(index, log)
    ensures RunnersIndexed(PushNew(index, RunnerOf(h), h.invocation), log + [h])
  {
    var next := PushNew(index, RunnerOf(h), h.invocation);
    assert (log + [h])[..|log|] == log;
    forall runner: Id ensures Get(next, runner) == Distinct(ByRunner(log + [h], runner)) {
      var ids := ByRunner(log, runner);
      if RunnerOf(h) == Some(runner) {
        assert (ids + [h.invocation])[..|ids|] == ids;
      } else {
        assert ByRunner(log + [h], runner) == ids;
      }
    }
  }

  /** One more upsert adds its invocation to the firsts exactly when it is new. */
  lemma FirstUpsertsAppend(log: seq<Invocation>, i: Invocation)
    ensures FirstUpserts(log + [i]) == FirstUpserts(log) + if i.id in Latest(log) then [] else [i]
  {
    assert (log + [i])[..|log|] == log;
  }

  lemma LinkedAppend(s: seq<Invocation>, i: Invocation, link: Link, to: Id)
    ensures Linked(s + [i], link, to) == Linked(s, link, to) + if Target(i, link) == Some(to) then [i.id] else []
  {
    assert (s + [i])[..|s|] == s;
  }

  lemma PushedLink(index: Index, firsts: seq<Invocation>, link: Link, i: Invocation, to: Id)
    requires Get(index, to) == Linked(firsts, link, to)
    ensures Get(Push(index, Target(i, link), i.id), to) == Linked(firsts + [i], link, to)
  {
    LinkedAppend(firsts, i, link, to);
  }

  lemma PushedLinks(index: Index, firsts: seq<Invocation>, link: Link, i: Invocation)
    requires Links(index, firsts, link)
    ensures Links(Push(index, Target(i, link), i.id), firsts + [i], link)
  {
    forall to: Id ensures Get(Push(index, Target(i, link), i.id), to) == Linked(firsts + [i], link, to) {
      PushedLink(index, firsts, link, i, to);
    }
  }

  lemma UpsertedLink(index: Index, log: seq<Invocation>, link: Link, i: Invocation)
    requires LinksIndexed(index, log, link)
    ensures LinksIndexed(PushFirst(Latest(log), index, Target(i, link), i.id), log + [i], link)
  {
    var firsts := FirstUpserts(log);
    FirstUpsertsAppend(log, i);
    PushedLinks(index, firsts, link, i);
    assert firsts + [] == firsts;
  }

  /** The three maps an upsert changes. */
  ghost predicate UpsertsIndexed(current: map<Id, Invocation>, members: Index, children: Index, log: seq<Invocation>) {
    && current == Latest(log)
    && LinksIndexed(members, log, ByWorkflow)
    && LinksIndexed(children, log, ByParent)
  }

  lemma Upserted(current: map<Id, Invocation>, members: Index, children: Index, log: seq<Invocation>, i: Invocation)
    requires UpsertsIndexed(current, members, children, log)
    ensures UpsertsIndexed(
              current[i.id := i], PushFirst(current, members, i.workflow, i.id),
              PushFirst(current, children, i.parent, i.id), log + [i])
  {
    assert (log + [i])[..|log|] == log;
    UpsertedLink(members, log, ByWorkflow, i);
    UpsertedLink(children, log, ByParent, i);
  }

  lemma StoredRun(runs: map<Id, seq<Run>>, log: seq<Run>, r: Run)
    requires RunsIndexed(runs, log)
    ensures var had := GetRuns(runs, r.kind);
            RunsIndexed(runs[r.kind := if HasRun(had, r.id) then had else had + [r]], log + [r])
  {
    assert (log + [r])[..|log|] == log;
    var had := GetRuns(runs, r.kind);
    assert had == RunsOf(log, r.kind);
    var next := runs[r.kind := if HasRun(had, r.id) then had else had + [r]];
    forall kind: Id ensures GetRuns(next, kind) == RunsOf(log + [r], kind) {
      assert GetRuns(runs, kind) == RunsOf(log, kind);
    }
  }

  class MemStateBackend {
    var invocations: map<Id, Invocation>
    var workflowMembers: Index
    var children: Index
    var runnerInvocations: Index
    var histories: map<Id, seq<History>>
    var workflowRuns: map<Id, seq<Run>>
    ghost var upserts: seq<Invocation>
    ghost var history: seq<History>
    ghost var stored: seq<Run>

    /** Every index equals its scan. */
    ghost predicate Valid()
      reads this
    {
      && UpsertsIndexed(invocations, workflowMembers, children, upserts)
      && RunnersIndexed(runnerInvocations, history)
      && RunsIndexed(workflowRuns, stored)
    }

    constructor ()
      ensures Valid() && upserts == [] && history == [] && stored == []
    {
      invocations, workflowMembers, children := map[], map[], map[];
      runnerInvocations, histories, workflowRuns := map[], map[], map[];
      upserts, history, stored := [], [], [];
    }

    method UpsertInvocation(i: Invocation)
      requires Valid()
      modifies this`invocations, this`workflowMembers, this`children, this`upserts
      ensures Valid() && upserts == old(upserts) + [i]
    {
      Upserted(invocations, workflowMembers, children, upserts, i);
      workflowMembers := PushFirst(invocations, workflowMembers, i.workflow, i.id);
      children := PushFirst(invocations, children, i.parent, i.id);
      invocations := invocations[i.id := i];
      upserts := upserts + [i];
      assert UpsertsIndexed(invocations, workflowMembers, children, upserts);
      assert RunnersIndexed(runnerInvocations, history);
    }

    method AddHistory(h: History)
      requires Valid()
      modifies this`runnerInvocations, this`histories, this`history
      ensures Valid() && history == old(history) + [h]
      ensures histories == old(histories)[h.invocation :=
                (if h.invocation in old(histories) then old(histories)[h.invocation] else []) + [h]]
    {
      AddedHistory(runnerInvocations, history, h);
      var runner := if h.runner.Some? then h.runner else h.statusRunner;
      if runner.Some? {
        var entries := Get(runnerInvocations, runner.value);
        if h.invocation !in entries { entries := entries + [h.invocation]; }
        runnerInvocations := runnerInvocations[runner.value := entries];
      }
      histories := histories[h.invocation := (if h.invocation in histories then histories[h.invocation] else []) + [h]];
      history := history + [h];
    }

    method StoreWorkflowRun(r: Run)
      requires Valid()
      modifies this`workflowRuns, this`stored
      ensures Valid() && stored == old(stored) + [r]
    {
      StoredRun(workflowRuns, stored, r);
      var runs := GetRuns(workflowRuns, r.kind);
      if !HasRun(runs, r.id) { runs := runs + [r]; }
      workflowRuns := workflowRuns[r.kind := runs];
      stored := stored + [r];
    }

    method Purge()
      modifies this
      ensures Valid() && upserts == [] && history == [] && stored == []
    {
      invocations, workflowMembers, children := map[], map[], map[];
      runnerInvocations, histories, workflowRuns := map[], map[], map[];
      upserts, history, stored := [], [], [];
    }

    method GetInvocationIdsByRunner(runner: Id, limit: nat, offset: nat) returns (ids: seq<Id>)
      requires Valid()
      ensures ids == RunnerPage(Distinct(ByRunner(history, runner)), limit, offset)
    {
      ids := [];
      if runner in runnerInvocations {
        var all := runnerInvocations[runner];
        assert all == Get(runnerInvocations, runner);
        var rest := if offset < |all| then all[offset..] else [];
        ids := if limit > 0 && limit < |rest| then rest[..limit] else rest;
      } else {
        assert Get(runnerInvocations, runner) == [];
      }
    }

    method GetWorkflowRunOffset(kind: Id, id: Id) returns (r: Option<nat>)
      requires Valid()
      ensures r.Some? <==> HasRun(RunsOf(stored, kind), id)
      ensures r.Some? ==> r.value == Greater(RunsOf(stored, kind), id)
    {
      assert GetRuns(workflowRuns, kind) == RunsOf(stored, kind);
      if kind !in workflowRuns { return None; }
      var runs := workflowRuns[kind];
      if !HasRun(runs, id) { return None; }
      var count := 0;
      for i := 0 to |runs|
        invariant count == Greater(runs[..i], id)
      {
        assert runs[..i + 1][..i] == runs[..i];
        if runs[i].id > id { count := count + 1; }
      }
      assert runs[..|runs|] == runs;
      r := Some(count);
    }

    method GetWorkflowRunsPaginated(kind: Id, limit: nat, offset: nat) returns (page: seq<Run>)
      requires Valid()
      ensures page == Page(Descending(RunsOf(stored, kind)), limit, offset)
    {
      assert GetRuns(workflowRuns, kind) == RunsOf(stored, kind);
      var runs := Descending(GetRuns(workflowRuns, kind));
      page := Page(runs, limit, offset);
    }
  }

  /** The document backend answers the same query by scanning the history in order with a set of the
      invocations seen. */
  method ScanByRunner(log: seq<History>, runner: Id, limit: nat, offset: nat) returns (ids: seq<Id>)
    ensures ids == RunnerPage(Distinct(ByRunner(log, runner)), limit, offset)
  {
    var seen: set<Id> := {};
    var result: seq<Id> := [];
    for i := 0 to |log|
      invariant result == Distinct(ByRunner(log[..i], runner))
      invariant forall id :: id in seen <==> id in result
    {
      assert log[..i + 1][..i] == log[..i];
      ghost var before := ByRunner(log[..i], runner);
      if RunnerOf(log[i]) == Some(runner) {
        assert (before + [log[i].invocation])[..|before|] == before;
        if log[i].invocation !in seen {
          seen := seen + {log[i].invocation};
          result := result + [log[i].invocation];
        }
      } else {
        assert ByRunner(log[..i + 1], runner) == before;
      }
    }
    assert log[..|log|] == log;
    ids := RunnerPage(result, limit, offset);
  }

  // -- descending order and offsets ---------------------------------------

  function InsertRun(runs: seq<Run>, r: Run): seq<Run> {
    if runs == [] || runs[0].id < r.id then [r] + runs else [runs[0]] + InsertRun(runs[1..], r)
  }

  /** Sorted by descending id; a later run follows an earlier one of the same id. */
  function Descending(runs: seq<Run>): seq<Run> {
    if runs == [] then [] else InsertRun(Descending(runs[..|runs| - 1]), runs[|runs| - 1])
  }

  function Greater(runs: seq<Run>, id: Id): nat {
    if runs == [] then 0
    else Greater(runs[..|runs| - 1], id) + if runs[|runs| - 1].id > id then 1 else 0
  }

  ghost predicate Falls(runs: seq<Run>) {
    forall i, j | 0 <= i < j < |runs| :: runs[i].id > runs[j].id
  }

  lemma {:induction false} InsertRunMeaning(runs: seq<Run>, r: Run)
    requires Falls(runs) && !HasRun(runs, r.id)
    ensures Falls(InsertRun(runs, r))
    ensures forall x :: x in InsertRun(runs, r) <==> x == r || x in runs
    ensures |InsertRun(runs, r)| == |runs| + 1
  {
    if runs != [] && runs[0].id >= r.id {
      var rest := InsertRun(runs[1..], r);
      assert forall i | 0 <= i < |runs[1..]| :: runs[1..][i] == runs[i + 1];
      InsertRunMeaning(runs[1..], r);
      forall x | x in rest ensures x.id < runs[0].id {
        if x != r { assert x in runs[1..]; }
      }
    }
  }

  lemma HasRunIn(runs: seq<Run>, id: Id)
    ensures HasRun(runs, id) <==> exists r :: r in runs && r.id == id
  {
    if HasRun(runs, id) {
      var i :| 0 <= i < |runs| && runs[i].id == id;
      assert runs[i] in runs;
    }
  }

  /** The descending order holds exactly the runs, strictly falling. */
  lemma {:induction false} DescendingMeaning(runs: seq<Run>)
    requires DistinctRuns(runs)
    ensures Falls(Descending(runs)) && |Descending(runs)| == |runs|
    ensures forall r :: r in Descending(runs) <==> r in runs
  {
    if runs != [] {
      var n := |runs| - 1;
      DescendingMeaning(runs[..n]);
      var sorted := Descending(runs[..n]);
      assert !HasRun(sorted, runs[n].id) by {
        HasRunIn(sorted, runs[n].id);
      }
      InsertRunMeaning(sorted, runs[n]);
      assert runs == runs[..n] + [runs[n]];
    }
  }

  lemma {:induction false} GreaterInsert(runs: seq<Run>, r: Run, id: Id)
    ensures GreaterFront(InsertRun(runs, r), id) == GreaterFront(runs, id) + if r.id > id then 1 else 0
  {
    if runs != [] && runs[0].id >= r.id { GreaterInsert(runs[1..], r, id); }
  }

  /** The same count from the front. */
  function GreaterFront(runs: seq<Run>, id: Id): nat {
    if runs == [] then 0 else (if runs[0].id > id then 1 else 0) + GreaterFront(runs[1..], id)
  }

  lemma {:induction false} GreaterDescending(runs: seq<Run>, id: Id)
    ensures GreaterFront(Descending(runs), id) == Greater(runs, id)
  {
    if runs != [] {
      GreaterDescending(runs[..|runs| - 1], id);
      GreaterInsert(Descending(runs[..|runs| - 1]), runs[|runs| - 1], id);
    }
  }

  lemma {:induction false} PositionInFall(runs: seq<Run>, k: nat)
    requires Falls(runs) && k < |runs|
    ensures GreaterFront(runs, runs[k].id) == k
  {
    if k == 0 {
      NoneGreater(runs, runs[0].id);
    } else {
      PositionInFall(runs[1..], k - 1);
    }
  }

  lemma {:induction false} NoneGreater(runs: seq<Run>, id: Id)
    requires forall r | r in runs :: r.id <= id
    ensures GreaterFront(runs, id) == 0
  {
    if runs != [] { NoneGreater(runs[1..], id); }
  }

  /** A stored run's reported offset is its position in the descending order: the page that starts
      there begins with that run. */
  lemma OffsetIsPosition(log: seq<Run>, kind: Id, id: Id, limit: nat)
    requires HasRun(RunsOf(log, kind), id) && limit > 0
    ensures var order := Descending(RunsOf(log, kind));
            var offset := Greater(RunsOf(log, kind), id);
            && offset < |order| && order[offset].id == id
            && Page(order, limit, offset) != [] && Page(order, limit, offset)[0].id == id
  {
    RunsOfMeaning(log, kind);
    OffsetInOrder(RunsOf(log, kind), id);
  }

  lemma OffsetInOrder(runs: seq<Run>, id: Id)
    requires DistinctRuns(runs) && HasRun(runs, id)
    ensures var order, offset := Descending(runs), Greater(runs, id);
            offset < |order| && order[offset].id == id
  {
    DescendingMeaning(runs);
    var order := Descending(runs);
    var i :| 0 <= i < |runs| && runs[i].id == id;
    assert runs[i] in order;
    var k :| 0 <= k < |order| && order[k] == runs[i];
    PositionInFall(order, k);
    GreaterDescending(runs, id);
  }

  // -- pages --------------------------------------------------------------

  /** Consecutive pages from `offset` on. */
  function Pages<T>(s: seq<T>, limit: nat, offset: nat): seq<T>
    requires limit > 0
    decreases |s| - offset
  {
    if |s| <= offset then [] else Page(s, limit, offset) + Pages(s, limit, offset + limit)
  }

  lemma {:induction false} PagesFrom<T>(s: seq<T>, limit: nat, offset: nat)
    requires limit > 0 && offset <= |s|
    ensures Pages(s, limit, offset) == s[offset..]
    decreases |s| - offset
  {
    if offset + limit < |s| {
      PagesFrom(s, limit, offset + limit);
      assert s[offset..] == s[offset..offset + limit] + s[offset + limit..];
    }
  }

  /** Every page size gives the whole descending order back, each run once. */
  lemma PagesConcatenate(log: seq<Run>, kind: Id, limit: nat)
    requires limit > 0
    ensures var order := Descending(RunsOf(log, kind));
            && Pages(order, limit, 0) == order
            && Falls(order)
            && (forall r :: r in order <==> r in RunsOf(log, kind))
  {
    PagesFrom(Descending(RunsOf(log, kind)), limit, 0);
    RunsOfMeaning(log, kind);
    DescendingMeaning(RunsOf(log, kind));
  }

  /** What a page holds: from `offset` on, at most `limit` items, fewer only at the end. */
  lemma PageMeaning<T>(s: seq<T>, limit: nat, offset: nat)
    ensures var page := Page(s, limit, offset);
            && |page| <= limit && (offset <= |s| ==> |page| <= |s| - offset)
            && (offset + limit <= |s| ==> |page| == limit)
            && (offset <= |s| < offset + limit ==> |page| == |s| - offset)
            && (offset >= |s| ==> page == [])
            && forall i | 0 <= i < |page| :: offset + i < |s| && page[i] == s[offset + i]
  {
  }

  /** Some record of the runner, by its own field or else by its status, names the invocation. */
  ghost predicate Touched(log: seq<History>, runner: Id, id: Id) {
    exists h | h in log ::
      h.invocation == id && (h.runner == Some(runner) || (h.runner == None && h.statusRunner == Some(runner)))
  }

  lemma {:induction false} ByRunnerMeaning(log: seq<History>, runner: Id, id: Id)
    ensures id in ByRunner(log, runner) <==> Touched(log, runner, id)
  {
    if log != [] {
      var n := |log| - 1;
      ByRunnerMeaning(log[..n], runner, id);
      assert log == log[..n] + [log[n]];
    }
  }

  function RunnerPages(s: seq<Id>, limit: nat, offset: nat): seq<Id>
    requires limit > 0
    decreases |s| - offset
  {
    if |s| <= offset then [] else RunnerPage(s, limit, offset) + RunnerPages(s, limit, offset + limit)
  }

  lemma {:induction false} RunnerPagesArePages(s: seq<Id>, limit: nat, offset: nat)
    requires limit > 0
    ensures RunnerPages(s, limit, offset) == Pages(s, limit, offset)
    decreases |s| - offset
  {
    if offset < |s| { RunnerPagesArePages(s, limit, offset + limit); }
  }

  /** A runner's pages concatenate to its invocations in the order it first touched them, each once; a
      zero limit gives all of them from the offset on. */
  lemma RunnerPagesConcatenate(log: seq<History>, runner: Id, limit: nat, offset: nat)
    requires limit > 0
    ensures var all := Distinct(ByRunner(log, runner));
            && RunnerPages(all, limit, 0) == all
            && RunnerPage(all, 0, offset) == (if offset <= |all| then all[offset..] else [])
            && NoRepeats(all) && OrderedByFirst(ByRunner(log, runner), all)
            && (forall id :: id in all <==> Touched(log, runner, id))
  {
    var all := Distinct(ByRunner(log, runner));
    PagesFrom(all, limit, 0);
    RunnerPagesArePages(all, limit, 0);
    DistinctMeaning(ByRunner(log, runner));
    forall id ensures id in all <==> Touched(log, runner, id) { ByRunnerMeaning(log, runner, id); }
  }

  // -- the link indexes against the stored invocations --------------------

  /** The index agrees with the invocations as they are stored now. */
  ghost predicate LinksCurrent(log: seq<Invocation>, link: Link) {
    forall to, id :: LinkCurrent(log, link, to, id)
  }

  ghost predicate LinkCurrent(log: seq<Invocation>, link: Link, to: Id, id: Id) {
    id in Linked(FirstUpserts(log), link, to) <==> id in Latest(log) && Target(Latest(log)[id], link) == Some(to)
  }

  /** Every invocation is now linked where its first upsert linked it. */
  ghost predicate LinksUnmoved(log: seq<Invocation>, link: Link) {
    forall f | f in FirstUpserts(log) :: f.id in Latest(log) && Target(Latest(log)[f.id], link) == Target(f, link)
  }

  lemma {:induction false} LinkedMeaning(s: seq<Invocation>, link: Link, to: Id, id: Id)
    ensures id in Linked(s, link, to) <==> exists f :: f in s && f.id == id && Target(f, link) == Some(to)
  {
    if s != [] {
      var n := |s| - 1;
      LinkedMeaning(s[..n], link, to, id);
      assert s == s[..n] + [s[n]];
    }
  }

  ghost predicate DistinctFirsts(s: seq<Invocation>) {
    forall f, g | f in s && g in s && f.id == g.id :: f == g
  }

  lemma {:induction false} FirstUpsertsMeaning(log: seq<Invocation>)
    ensures DistinctFirsts(FirstUpserts(log))
    ensures forall id :: id in Latest(log) <==> exists f :: f in FirstUpserts(log) && f.id == id
  {
    if log != [] {
      var n := |log| - 1;
      var firsts := FirstUpserts(log[..n]);
      FirstUpsertsMeaning(log[..n]);
      forall id ensures id in Latest(log) <==> exists f :: f in FirstUpserts(log) && f.id == id {
        if id == log[n].id && id !in Latest(log[..n]) { assert log[n] in FirstUpserts(log); }
        if id in Latest(log[..n]) {
          var f :| f in firsts && f.id == id;
          assert f in FirstUpserts(log);
        }
      }
    }
  }

  /** The index of first upserts equals a scan of the stored invocations exactly when every
      invocation is now linked as at first. */
  lemma LinksCurrentIff(log: seq<Invocation>, link: Link)
    ensures LinksCurrent(log, link) <==> LinksUnmoved(log, link)
  {
    FirstUpsertsMeaning(log);
    if LinksUnmoved(log, link) {
      forall to, id ensures LinkCurrent(log, link, to, id) {
        LinkedMeaning(FirstUpserts(log), link, to, id);
        if id in Latest(log) {
          var f :| f in FirstUpserts(log) && f.id == id;
        }
      }
    }
    if LinksCurrent(log, link) {
      forall f | f in FirstUpserts(log)
        ensures f.id in Latest(log) && Target(Latest(log)[f.id], link) == Target(f, link)
      {
        assert f.id in Latest(log);
        var first, now := Target(f, link), Target(Latest(log)[f.id], link);
        if first.Some? {
          LinkAgrees(log, link, f, first.value);
          assert LinkCurrent(log, link, first.value, f.id);
        }
        if now.Some? {
          LinkAgrees(log, link, f, now.value);
          assert LinkCurrent(log, link, now.value, f.id);
        }
      }
    }
  }

  /** One target of one invocation: the index is current there exactly when the first upsert and the
      latest agree on it. */
  lemma LinkAgrees(log: seq<Invocation>, link: Link, f: Invocation, to: Id)
    requires f in FirstUpserts(log)
    ensures f.id in Latest(log)
    ensures LinkCurrent(log, link, to, f.id) <==>
              (Target(f, link) == Some(to) <==> Target(Latest(log)[f.id], link) == Some(to))
  {
    FirstUpsertsMeaning(log);
    LinkedMeaning(FirstUpserts(log), link, to, f.id);
  }

  /** An invocation upserted under one parent and then under another: the index still lists it under
      the first. */
  lemma MovedChildIsStale(id: Id, p: Id, q: Id)
    requires p != q
    ensures var log := [Invocation(id, Some(p), None), Invocation(id, Some(q), None)];
            && id in Linked(FirstUpserts(log), ByParent, p) && Latest(log)[id].parent == Some(q)
            && !LinksCurrent(log, ByParent)
  {
    var a, b := Invocation(id, Some(p), None), Invocation(id, Some(q), None);
    var log := [a, b];
    assert log[..1] == [a] && [a][..0] == [];
    assert Latest([a]) == map[id := a] && FirstUpserts([a]) == [] + [a];
    assert Latest(log) == map[id := b] && FirstUpserts(log) == [a];
    assert Linked([a], ByParent, p) == Linked([], ByParent, p) + [id];
    assert !LinkCurrent(log, ByParent, p, id);
  }
}
