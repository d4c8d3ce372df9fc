/**
 The in-memory priority broker: one queue in arrival order, changed in place,
 with delayed entries and task and language filters.
 */
module Broker {

  import opened Wrappers

  datatype Language = Rust | Python

  datatype TaskId = TaskId(language: Language, name: nat)

  /** An f64 priority. Zero has two signs, which `total_cmp` tells apart. */
  datatype Float = Finite(value: real, negativeZero: bool) | Infinite(positive: bool) | NaN

  const MIN_PRIORITY := -100.0
  const MAX_PRIORITY := 100.0

  /** One queued entry. `ticket` is a history field: the arrival number of the entry. */
  datatype Entry = Entry(
    ticket: nat,
    invocation: nat,
    task: Option<TaskId>,
    queue: string,
    priority: Float,
    notBefore: Option<int>)

  const DEFAULT_QUEUE: string := "default"

  predicate NameChar(c: char) {
    'a' <= c <= 'z' || 'A' <= c <= 'Z' || '0' <= c <= '9' || c == '_' || c == '.' || c == '-'
  }

  predicate ValidRouting(queue: string, priority: Float) {
    && queue != "" && (forall c | c in queue :: NameChar(c))
    && priority.Finite? && MIN_PRIORITY <= priority.value <= MAX_PRIORITY
  }

  const ZERO := Finite(0.0, false)

  predicate Due(e: Entry, now: int) { e.notBefore.None? || e.notBefore.value <= now }

  /** `total_cmp` of two finite priorities, "at most". */
  predicate AtMost(a: Float, b: Float)
    requires a.Finite? && b.Finite?
  {
    a.value < b.value || (a.value == b.value && (Negative(a) || !Negative(b)))
  }

  predicate Negative(a: Float)
    requires a.Finite?
  {
    a.value < 0.0 || (a.value == 0.0 && a.negativeZero)
  }

  datatype Filter =
    | ForTask(queue: string, task: Option<TaskId>)
    | ForLanguage(queue: string, language: Language)

  /** Which entries a retrieval may take; an entry without a task counts as Rust work. */
  predicate Matches(f: Filter, now: int, e: Entry) {
    && e.queue == f.queue && Due(e, now)
    && match f
       case ForTask(_, task) => task.None? || e.task == task
       case ForLanguage(_, language) => LanguageOf(e) == language
  }

  function LanguageOf(e: Entry): Language {
    if e.task.None? then Rust else e.task.value.language
  }

  // -- what the queue looks like ------------------------------------------

  predicate AllFinite(q: seq<Entry>) { forall e | e in q :: e.priority.Finite? }

  ghost predicate Arranged(q: seq<Entry>) {
    && AllFinite(q)
    && (forall i, j | 0 <= i < j < |q| :: q[i].ticket < q[j].ticket)
  }

  /** Delivery order: higher priority first, earlier arrival first among equals. */
  predicate Before(a: Entry, b: Entry)
    requires a.priority.Finite? && b.priority.Finite?
  {
    !AtMost(a.priority, b.priority) || (AtMost(b.priority, a.priority) && a.ticket < b.ticket)
  }

  /** The entry a retrieval takes: the first in delivery order among the matching ones. */
  ghost predicate IsBest(q: seq<Entry>, f: Filter, now: int, k: nat) {
    && k < |q| && Matches(f, now, q[k])
    && forall i | 0 <= i < |q| && i != k && Matches(f, now, q[i]) ::
         q[i].priority.Finite? && q[k].priority.Finite? && Before(q[k], q[i])
  }

  /** The selection of `max_by`: scan in arrival order, keep the best so far. */
  function Best(q: seq<Entry>, f: Filter, now: int): (found: Option<nat>)
    requires AllFinite(q)
    ensures found.Some? ==> found.value < |q|
  {
    if q == [] then None
    else
      var n := |q| - 1;
      var found := Best(q[..n], f, now);
      if Matches(f, now, q[n]) && (found.None? || !AtMost(q[n].priority, q[found.value].priority)) then Some(n)
      else found
  }

  lemma {:induction false} BestMeaning(q: seq<Entry>, f: Filter, now: int)
    requires Arranged(q)
    ensures Best(q, f, now).Some? ==> IsBest(q, f, now, Best(q, f, now).value)
    ensures Best(q, f, now).None? ==> forall e | e in q :: !Matches(f, now, e)
  {
    if q != [] {
      var n := |q| - 1;
      BestMeaning(q[..n], f, now);
      assert forall e :: e in q <==> e in q[..n] || e == q[n];
      var was := Best(q[..n], f, now);
      if was.Some? && Best(q, f, now) == was {
        StillBest(q, f, now, was.value);
      } else if Best(q, f, now) == Some(n) {
        NewBest(q, f, now, was);
      }
    }
  }

  lemma StillBest(q: seq<Entry>, f: Filter, now: int, k: nat)
    requires Arranged(q) && q != [] && IsBest(q[..|q| - 1], f, now, k)
    requires var n := |q| - 1; Matches(f, now, q[n]) ==> AtMost(q[n].priority, q[k].priority)
    ensures IsBest(q, f, now, k)
  {
    var n := |q| - 1;
    forall i | 0 <= i < |q| && i != k && Matches(f, now, q[i]) ensures Before(q[k], q[i]) {
      if i < n { assert q[i] == q[..n][i]; }
    }
  }

  lemma NewBest(q: seq<Entry>, f: Filter, now: int, was: Option<nat>)
    requires Arranged(q) && q != [] && Matches(f, now, q[|q| - 1])
    requires var n := |q| - 1;
             if was.Some? then IsBest(q[..n], f, now, was.value) && !AtMost(q[n].priority, q[was.value].priority)
             else forall e | e in q[..n] :: !Matches(f, now, e)
    ensures IsBest(q, f, now, |q| - 1)
  {
    var n := |q| - 1;
    forall i | 0 <= i < n && Matches(f, now, q[i]) ensures Before(q[n], q[i]) {
      assert q[i] == q[..n][i] && q[i] in q[..n];
    }
  }

  /** The best entry comes before every other matching one. */
  lemma BestBeats(q: seq<Entry>, f: Filter, now: int, k: nat, e: Entry)
    requires Arranged(q) && IsBest(q, f, now, k) && e in q && Matches(f, now, e)
    ensures e == q[k] || Before(q[k], e)
  {
    var i :| 0 <= i < |q| && q[i] == e;
  }

  function Without(q: seq<Entry>, k: nat): seq<Entry>
    requires k < |q|
  {
    q[..k] + q[k + 1..]
  }

  lemma WithoutArranged(q: seq<Entry>, k: nat)
    requires Arranged(q) && k < |q|
    ensures Arranged(Without(q, k))
    ensures forall e :: e in Without(q, k) <==> e in q && e != q[k]
  {
    forall e ensures e in Without(q, k) <==> e in q && e != q[k] { WithoutHolds(q, k, e); }
  }

  lemma WithoutHolds(q: seq<Entry>, k: nat, e: Entry)
    requires Arranged(q) && k < |q|
    ensures e in Without(q, k) <==> e in q && e != q[k]
  {
    var r := Without(q, k);
    if e in q && e != q[k] {
      var i :| 0 <= i < |q| && q[i] == e;
      if i < k { assert r[i] == e; } else { assert r[i - 1] == e; }
    }
    if e in r {
      var i :| 0 <= i < |r| && r[i] == e;
      if i < k { assert q[i] == e && q[i].ticket < q[k].ticket; }
      else { assert q[i + 1] == e && q[k].ticket < q[i + 1].ticket; }
    }
  }

  // -- the broker ---------------------------------------------------------

  /** `MemBroker`: one mutex around the queue; each method is one critical section. `arrivals` counts
      the entries ever queued and gives them their tickets. */
  class MemBroker {
    var queue: seq<Entry>
    ghost var arrivals: nat

    ghost predicate Valid() reads this {
      Arranged(queue) && forall e | e in queue :: e.ticket < arrivals
    }

    constructor ()
      ensures Valid() && queue == [] && arrivals == 0
    {
      queue := [];
      arrivals := 0;
    }

    method Push(
      ticket: nat, invocation: nat, task: Option<TaskId>, name: string, priority: Float, notBefore: Option<int>)
      returns (r: Result<()>)
      requires Valid() && ticket == arrivals
      modifies this
      ensures Valid()
      ensures r.Ok? <==> ValidRouting(name, priority)
      ensures r.Ok? ==>
                && queue == old(queue) + [Entry(ticket, invocation, task, name, priority, notBefore)]
                && arrivals == old(arrivals) + 1
      ensures r.Err? ==> queue == old(queue) && arrivals == old(arrivals)
    {
      if !ValidRouting(name, priority) { return Err; }
      queue := queue + [Entry(ticket, invocation, task, name, priority, notBefore)];
      arrivals := arrivals + 1;
      r := Ok(());
    }

    method RouteInvocationWithOptions(ticket: nat, invocation: nat, task: Option<TaskId>, name: string, priority: Float)
      returns (r: Result<()>)
      requires Valid() && ticket == arrivals
      modifies this
      ensures Valid()
      ensures r.Ok? <==> ValidRouting(name, priority)
      ensures r.Ok? ==>
                && queue == old(queue) + [Entry(ticket, invocation, task, name, priority, None)]
                && arrivals == old(arrivals) + 1
      ensures r.Err? ==> queue == old(queue) && arrivals == old(arrivals)
    {
      r := Push(ticket, invocation, task, name, priority, None);
    }

    /** Delayed delivery: invisible until `now + delay`. */
    method RouteInvocationAfter(
      ticket: nat, invocation: nat, task: Option<TaskId>, name: string, priority: Float, now: int, delay: nat)
      returns (r: Result<()>)
      requires Valid() && ticket == arrivals
      modifies this
      ensures Valid()
      ensures r.Ok? <==> ValidRouting(name, priority)
      ensures r.Ok? ==>
                && queue == old(queue) + [Entry(ticket, invocation, task, name, priority, Some(now + delay))]
                && arrivals == old(arrivals) + 1
      ensures r.Err? ==> queue == old(queue) && arrivals == old(arrivals)
    {
      r := Push(ticket, invocation, task, name, priority, Some(now + delay));
    }

    method Select(f: Filter, now: int) returns (found: Option<nat>)
      requires Valid()
      ensures found == Best(queue, f, now)
    {
      found := None;
      for i := 0 to |queue|
        invariant found == Best(queue[..i], f, now)
      {
        assert queue[..i + 1][..i] == queue[..i];
        if Matches(f, now, queue[i]) && (found.None? || !AtMost(queue[i].priority, queue[found.value].priority)) {
          found := Some(i);
        }
      }
      assert queue[..|queue|] == queue;
    }

    /** `retrieve_invocation_from_queue` and `retrieve_invocation_for_language_from_queue`: take the
        best matching entry out of the queue; the rest stays in arrival order. */
    method Retrieve(f: Filter, now: int) returns (r: Result<Option<Entry>>)
      requires Valid()
      modifies this`queue
      ensures Valid()
      ensures r.Err? <==> !ValidRouting(f.queue, ZERO)
      ensures r.Err? ==> queue == old(queue)
      ensures r.Ok? ==> Taken(r.value, queue) == Take(old(queue), f, now)
    {
      if !ValidRouting(f.queue, ZERO) { return Err; }
      var found := Select(f, now);
      if found.None? { return Ok(None); }
      var k := found.value;
      WithoutArranged(queue, k);
      r := Ok(Some(queue[k]));
      queue := queue[..k] + queue[k + 1..];
    }

    method CountDue(names: seq<string>, task: Option<TaskId>, now: int) returns (n: nat)
      ensures n == |set i | 0 <= i < |queue| && Countable(queue[i], names, task, now)|
    {
      n := 0;
      ghost var seen: set<int> := {};
      for i := 0 to |queue|
        invariant seen == set k | 0 <= k < i && Countable(queue[k], names, task, now)
        invariant n == |seen|
      {
        ghost var next := set k | 0 <= k < i + 1 && Countable(queue[k], names, task, now);
        if Countable(queue[i], names, task, now) {
          assert next == seen + {i};
          n := n + 1;
        } else {
          assert next == seen;
        }
        seen := next;
      }
    }

    method CountInvocationsInQueues(names: seq<string>, task: Option<TaskId>, now: int) returns (r: Result<nat>)
      ensures r.Err? <==> exists n | n in names :: !ValidRouting(n, ZERO)
      ensures r.Ok? ==>
                r.value == |set i | 0 <= i < |queue|
                              && (queue[i].notBefore.None? || queue[i].notBefore.value <= now)
                              && (names == [] || queue[i].queue in names) && (task.None? || queue[i].task == task)|
    {
      for i := 0 to |names|
        invariant forall k | 0 <= k < i :: ValidRouting(names[k], ZERO)
      {
        if !ValidRouting(names[i], ZERO) { return Err; }
      }
      var n := CountDue(names, task, now);
      assert (set i | 0 <= i < |queue| && Countable(queue[i], names, task, now)) ==
             (set i | 0 <= i < |queue|
                && (queue[i].notBefore.None? || queue[i].notBefore.value <= now)
                && (names == [] || queue[i].queue in names) && (task.None? || queue[i].task == task));
      r := Ok(n);
    }

    method Purge(task: Option<TaskId>)
      requires Valid()
      modifies this`queue
      ensures Valid()
      ensures queue == Kept(old(queue), task)
    {
      if task.None? {
        KeptNone(queue);
        queue := [];
      } else {
        KeptArranged(queue, task);
        queue := Kept(queue, task);
      }
    }

    /** Retrieve up to `cap` times; `clock` gives the time each retrieval reads. */
    method RetrieveUpTo(f: Filter, cap: nat, clock: nat -> int) returns (out: seq<Entry>)
      requires Valid() && ValidRouting(f.queue, ZERO)
      modifies this`queue
      ensures Valid()
      ensures out == Drain(old(queue), f, clock, 0, cap).out
      ensures queue == Drain(old(queue), f, clock, 0, cap).rest
    {
      ghost var was := queue;
      out := [];
      while |out| < cap
        invariant Valid() && SoFar(was, f, clock, cap, out, queue)
        decreases cap - |out|
      {
        SoFarStep(was, f, clock, cap, out, queue);
        var r := Retrieve(f, clock(|out|));
        if r.value.None? { return; }
        out := out + [r.value.value];
      }
      SoFarEnd(was, f, clock, cap, out, queue);
    }

    /** The default batch `retrieve_invocations`: repeated retrieval from the default queue. */
    method RetrieveInvocations(max: nat, task: Option<TaskId>, clock: nat -> int) returns (out: seq<Entry>)
      requires Valid()
      modifies this`queue
      ensures Valid()
      ensures out == Drain(old(queue), ForTask(DEFAULT_QUEUE, task), clock, 0, Capped(max)).out
      ensures queue == Drain(old(queue), ForTask(DEFAULT_QUEUE, task), clock, 0, Capped(max)).rest
    {
      DefaultQueueValid();
      out := RetrieveUpTo(ForTask(DEFAULT_QUEUE, task), Capped(max), clock);
    }
  }

  /** A batch from `was` has given `out` and left `q`: going on from there completes it. */
  ghost predicate SoFar(was: seq<Entry>, f: Filter, clock: nat -> int, cap: nat, out: seq<Entry>, q: seq<Entry>) {
    && AllFinite(was) && AllFinite(q) && |out| <= cap
    && Joined(Drain(was, f, clock, 0, cap), out, Drain(q, f, clock, |out|, cap - |out|))
  }

  predicate Joined(all: Batch, out: seq<Entry>, more: Batch) { all.out == out + more.out && all.rest == more.rest }

  lemma JoinedNext(all: Batch, out: seq<Entry>, x: Entry, more: Batch)
    requires Joined(all, out, Batch([x] + more.out, more.rest))
    ensures Joined(all, out + [x], more)
  {
    Regroup(out, x, more.out);
  }

  lemma SoFarStep(was: seq<Entry>, f: Filter, clock: nat -> int, cap: nat, out: seq<Entry>, q: seq<Entry>)
    requires SoFar(was, f, clock, cap, out, q) && |out| < cap
    ensures var t := Take(q, f, clock(|out|));
            && (t.entry.None? ==> Drain(was, f, clock, 0, cap) == Batch(out, t.rest))
            && (t.entry.Some? ==> SoFar(was, f, clock, cap, out + [t.entry.value], t.rest))
  {
    var t := Take(q, f, clock(|out|));
    if t.entry.Some? {
      SoFarSome(was, f, clock, cap, out, q, t.entry.value, t.rest);
    } else {
      SoFarNone(was, f, clock, cap, out, q);
    }
  }

  lemma SoFarSome(
    was: seq<Entry>, f: Filter, clock: nat -> int, cap: nat, out: seq<Entry>, q: seq<Entry>, x: Entry, rest: seq<Entry>)
    requires SoFar(was, f, clock, cap, out, q) && |out| < cap && Take(q, f, clock(|out|)) == Taken(Some(x), rest)
    ensures SoFar(was, f, clock, cap, out + [x], rest)
  {
    var i, left := |out|, cap - |out|;
    DrainUnfolds(q, f, clock, i, left);
    var more := Drain(rest, f, clock, i + 1, left - 1);
    JoinedNext(Drain(was, f, clock, 0, cap), out, x, more);
    assert |out + [x]| == i + 1 && cap - |out + [x]| == left - 1;
  }

  lemma SoFarNone(was: seq<Entry>, f: Filter, clock: nat -> int, cap: nat, out: seq<Entry>, q: seq<Entry>)
    requires SoFar(was, f, clock, cap, out, q) && |out| < cap && Take(q, f, clock(|out|)).entry.None?
    ensures Drain(was, f, clock, 0, cap) == Batch(out, q)
  {
    DrainUnfolds(q, f, clock, |out|, cap - |out|);
    assert out + [] == out;
  }

  lemma SoFarEnd(was: seq<Entry>, f: Filter, clock: nat -> int, cap: nat, out: seq<Entry>, q: seq<Entry>)
    requires SoFar(was, f, clock, cap, out, q) && |out| == cap
    ensures Drain(was, f, clock, 0, cap).out == out && Drain(was, f, clock, 0, cap).rest == q
  {
    DrainZero(q, f, clock, |out|);
    assert out + [] == out;
  }

  lemma Regroup(out: seq<Entry>, e: Entry, more: seq<Entry>)
    ensures out + ([e] + more) == out + [e] + more
  {
  }

  lemma DrainZero(q: seq<Entry>, f: Filter, clock: nat -> int, i: nat)
    requires AllFinite(q)
    ensures Drain(q, f, clock, i, 0) == Batch([], q)
  {
  }

  lemma DrainUnfolds(q: seq<Entry>, f: Filter, clock: nat -> int, i: nat, cap: nat)
    requires cap > 0 && AllFinite(q)
    ensures var t := Take(q, f, clock(i));
            && AllFinite(t.rest)
            && (t.entry.None? ==> Drain(q, f, clock, i, cap) == Batch([], q) && t.rest == q)
            && (t.entry.Some? ==>
                  var more := Drain(t.rest, f, clock, i + 1, cap - 1);
                  Drain(q, f, clock, i, cap) == Batch([t.entry.value] + more.out, more.rest))
  {
    var k := Best(q, f, clock(i));
    if k.Some? { TakeFinite(q, k.value); }
  }

  function Capped(max: nat): nat { if max < 10_000 then max else 10_000 }

  lemma DefaultQueueValid()
    ensures ValidRouting(DEFAULT_QUEUE, ZERO)
  {
  }

  predicate Countable(e: Entry, names: seq<string>, task: Option<TaskId>, now: int) {
    Due(e, now) && (names == [] || e.queue in names) && (task.None? || e.task == task)
  }

  function Kept(q: seq<Entry>, task: Option<TaskId>): seq<Entry> {
    if q == [] then []
    else Kept(q[..|q| - 1], task) + if task.None? || q[|q| - 1].task == task then [] else [q[|q| - 1]]
  }

  lemma {:induction false} KeptNone(q: seq<Entry>)
    ensures Kept(q, None) == []
  {
    if q != [] { KeptNone(q[..|q| - 1]); }
  }

  lemma {:induction false} KeptMeaning(q: seq<Entry>, task: Option<TaskId>)
    ensures forall e :: e in Kept(q, task) <==> e in q && !(task.None? || e.task == task)
  {
    if q != [] {
      var n := |q| - 1;
      KeptMeaning(q[..n], task);
      assert q == q[..n] + [q[n]];
    }
  }

  lemma {:induction false} KeptArranged(q: seq<Entry>, task: Option<TaskId>)
    requires Arranged(q)
    ensures Arranged(Kept(q, task))
    ensures forall e :: e in Kept(q, task) <==> e in q && !(task.None? || e.task == task)
  {
    KeptMeaning(q, task);
    if q != [] {
      var n := |q| - 1;
      KeptArranged(q[..n], task);
      EarlierTickets(q);
      AppendArranged(Kept(q[..n], task), q[n]);
    }
  }

  lemma AppendArranged(q: seq<Entry>, e: Entry)
    requires Arranged(q) && e.priority.Finite? && forall x | x in q :: x.ticket < e.ticket
    ensures Arranged(q + [e]) && q + [] == q
  {
  }

  lemma {:induction false} KeptFinite(q: seq<Entry>, task: Option<TaskId>)
    requires AllFinite(q)
    ensures AllFinite(Kept(q, task))
  {
    if q != [] {
      KeptFinite(q[..|q| - 1], task);
      assert q[|q| - 1] in q;
    }
  }

  lemma EarlierTickets(q: seq<Entry>)
    requires Arranged(q) && q != []
    ensures forall e | e in q[..|q| - 1] :: e.ticket < q[|q| - 1].ticket
  {
    var n := |q| - 1;
    forall e | e in q[..n] ensures e.ticket < q[n].ticket {
      var i :| 0 <= i < n && q[..n][i] == e;
    }
  }

  // -- retrieval and batches on values -------------------------------------

  /** The entry a retrieval takes, if any, and what it leaves. */
  datatype Taken = Taken(entry: Option<Entry>, rest: seq<Entry>)

  function Take(q: seq<Entry>, f: Filter, now: int): Taken
    requires AllFinite(q)
  {
    var k := Best(q, f, now);
    if k.None? then Taken(None, q) else Taken(Some(q[k.value]), Without(q, k.value))
  }

  lemma TakeFinite(q: seq<Entry>, k: nat)
    requires k < |q| && AllFinite(q)
    ensures forall e | e in Without(q, k) :: e in q && e.priority.Finite?
  {
  }

  datatype Batch = Batch(out: seq<Entry>, rest: seq<Entry>)

  /** Retrieve up to `cap` times; retrieval `i` reads the time `clock(i)`. */
  function Drain(q: seq<Entry>, f: Filter, clock: nat -> int, i: nat, cap: nat): Batch
    requires AllFinite(q)
    decreases cap
  {
    var k := Best(q, f, clock(i));
    if cap == 0 || k.None? then Batch([], q)
    else
      TakeFinite(q, k.value);
      var more := Drain(Without(q, k.value), f, clock, i + 1, cap - 1);
      Batch([q[k.value]] + more.out, more.rest)
  }
}
