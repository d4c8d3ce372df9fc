/**
 What the broker guarantees: batches are stable sorts, every routed entry is
 delivered once at most and never early, and languages do not disturb each other.
 */
module BrokerRuns {

  import opened Wrappers
  import opened Broker

  // -- the order of delivery, field by field ------------------------------

  /** What a caller asks for: the queue, an entry that is due, and its task or language; an entry
      without a task is Rust work. */
  predicate Wanted(f: Filter, now: int, e: Entry) {
    && e.queue == f.queue
    && (e.notBefore.Some? ==> e.notBefore.value <= now)
    && (f.ForTask? && f.task.Some? ==> e.task == f.task)
    && (f.ForLanguage? ==> if e.task.Some? then e.task.value.language == f.language else f.language == Rust)
  }

  lemma WantedIsMatched(f: Filter, now: int, e: Entry)
    ensures Matches(f, now, e) <==> Wanted(f, now, e)
  {
  }

  /** The greater priority first, +0 over -0, and among equal priorities the earlier arrival. */
  predicate Outranks(a: Entry, b: Entry)
    requires a.priority.Finite? && b.priority.Finite?
  {
    var x, y := a.priority, b.priority;
    || x.value > y.value
    || (x.value == y.value == 0.0 && !x.negativeZero && y.negativeZero)
    || (x.value == y.value && (x.value != 0.0 || x.negativeZero == y.negativeZero) && a.ticket < b.ticket)
  }

  lemma BeforeIsOutranks(a: Entry, b: Entry)
    requires a.priority.Finite? && b.priority.Finite?
    ensures Before(a, b) <==> Outranks(a, b)
  {
  }

  /** Entry `k` is delivered, the others stay in order, and every other entry the caller asks for has a
      smaller priority, or the same one and a later arrival. */
  ghost predicate Delivers(q: seq<Entry>, f: Filter, now: int, t: Taken, k: nat) {
    && k < |q| && t.entry == Some(q[k]) && t.rest == q[..k] + q[k + 1..] && Wanted(f, now, q[k])
    && (forall i | 0 <= i < |q| && i != k && Wanted(f, now, q[i]) ::
          var x, y := q[k].priority, q[i].priority;
          && x.Finite? && y.Finite?
          && (|| x.value > y.value
              || (x.value == y.value == 0.0 && !x.negativeZero && y.negativeZero)
              || (x.value == y.value && (x.value != 0.0 || x.negativeZero == y.negativeZero) && k < i)))
  }

  /** What one retrieval delivers: nothing exactly when no entry is asked for, and otherwise the entry of
      the highest priority, the earliest among equals. */
  lemma RetrievalMeaning(q: seq<Entry>, f: Filter, now: int)
    requires Arranged(q)
    ensures var t := Take(q, f, now);
            && (t.entry.None? <==> forall e | e in q :: !Wanted(f, now, e))
            && (t.entry.None? ==> t.rest == q)
            && (t.entry.Some? ==> exists k :: Delivers(q, f, now, t, k))
  {
    BestMeaning(q, f, now);
    var k := Best(q, f, now);
    forall e | e in q ensures Matches(f, now, e) <==> Wanted(f, now, e) { WantedIsMatched(f, now, e); }
    if k.Some? {
      forall i | 0 <= i < |q| && i != k.value && Wanted(f, now, q[i])
        ensures Outranks(q[k.value], q[i]) && (q[k.value].ticket < q[i].ticket <==> k.value < i)
      {
        assert q[i] in q && Matches(f, now, q[i]);
        BeforeIsOutranks(q[k.value], q[i]);
      }
      assert q[k.value] in q;
      assert Delivers(q, f, now, Take(q, f, now), k.value);
    }
  }

  /** In particular a higher priority is never kept waiting for a lower one. */
  lemma HigherPriorityFirst(q: seq<Entry>, f: Filter, now: int, low: Entry, high: Entry)
    requires Arranged(q) && low in q && high in q && Wanted(f, now, low) && Wanted(f, now, high)
    requires low.priority.value < high.priority.value
    ensures Take(q, f, now).entry.Some? && Take(q, f, now).entry.value != low
  {
    RetrievalMeaning(q, f, now);
    var t := Take(q, f, now);
    var k :| Delivers(q, f, now, t, k);
    var i :| 0 <= i < |q| && q[i] == high;
  }

  /** Which routings are accepted: names of ASCII letters, digits, `_`, `.` and `-`, and priorities from
      -100 to 100. */
  lemma RoutingMeaning(queue: string, priority: Float)
    ensures ValidRouting(queue, priority) <==>
              && |queue| > 0
              && (forall i | 0 <= i < |queue| ::
                    var n := queue[i] as int;
                    65 <= n <= 90 || 97 <= n <= 122 || 48 <= n <= 57 || n == 95 || n == 46 || n == 45)
              && priority.Finite? && -100.0 <= priority.value <= 100.0
  {
    forall i | 0 <= i < |queue|
      ensures var n := queue[i] as int;
              NameChar(queue[i]) <==>
              65 <= n <= 90 || 97 <= n <= 122 || 48 <= n <= 57 || n == 95 || n == 46 || n == 45
    {
    }
    assert (forall c | c in queue :: NameChar(c)) <==> (forall i | 0 <= i < |queue| :: NameChar(queue[i]));
  }

  // -- batch retrieval is a stable sort -----------------------------------

  /** The matching entries in delivery order. Tickets differ, so the same elements in a strict order
      are a permutation, and entries of equal priority keep their arrival order. */
  ghost predicate IsStableSort(q: seq<Entry>, f: Filter, now: int, s: seq<Entry>) {
    && (forall e :: e in s <==> e in q && Matches(f, now, e))
    && (forall e | e in s :: e.priority.Finite?)
    && (forall i, j | 0 <= i < j < |s| :: Before(s[i], s[j]))
  }

  /** No entry becomes due while the batch runs. */
  ghost predicate Steady(q: seq<Entry>, f: Filter, clock: nat -> int, i: nat, cap: nat, now: int) {
    forall e, j: nat | e in q && i <= j <= i + cap :: Matches(f, clock(j), e) <==> Matches(f, now, e)
  }

  lemma BestIsFirst(q: seq<Entry>, f: Filter, clock: nat -> int, i: nat, cap: nat, now: int, s: seq<Entry>)
    requires Arranged(q) && Steady(q, f, clock, i, cap, now) && IsStableSort(q, f, now, s)
    ensures Best(q, f, clock(i)).None? <==> s == []
    ensures Best(q, f, clock(i)).Some? ==> s[0] == q[Best(q, f, clock(i)).value]
  {
    BestMeaning(q, f, clock(i));
    var k := Best(q, f, clock(i));
    if s != [] {
      assert s[0] in s;
    }
    if k.Some? {
      var x := q[k.value];
      assert Matches(f, now, x) && x in s;
      var m :| 0 <= m < |s| && s[m] == x;
      assert m == 0 || Before(s[0], s[m]);
      BestBeats(q, f, clock(i), k.value, s[0]);
    }
  }

  lemma TailIsSorted(q: seq<Entry>, f: Filter, now: int, s: seq<Entry>, k: nat)
    requires Arranged(q) && IsStableSort(q, f, now, s) && s != [] && k < |q| && s[0] == q[k]
    ensures Arranged(Without(q, k)) && IsStableSort(Without(q, k), f, now, s[1..])
  {
    WithoutArranged(q, k);
    forall e ensures e in s[1..] <==> e in Without(q, k) && Matches(f, now, e) {
      if e in s[1..] {
        var m :| 0 <= m < |s[1..]| && s[1..][m] == e;
        assert Before(s[0], s[m + 1]);
      }
      if e in s && e != s[0] {
        var m :| 0 <= m < |s| && s[m] == e;
        assert s[1..][m - 1] == e;
      }
    }
  }

  function Min(a: nat, b: nat): nat { if a < b then a else b }

  lemma FrontOf(s: seq<Entry>, cap: nat)
    requires s != [] && cap > 0
    ensures [s[0]] + s[1..][..Min(cap - 1, |s| - 1)] == s[..Min(cap, |s|)]
  {
  }

  lemma {:induction false} BatchOut(
    q: seq<Entry>, f: Filter, clock: nat -> int, i: nat, cap: nat, now: int, s: seq<Entry>)
    requires Arranged(q) && Steady(q, f, clock, i, cap, now) && IsStableSort(q, f, now, s)
    ensures Drain(q, f, clock, i, cap).out == s[..Min(cap, |s|)]
    decreases cap
  {
    if cap == 0 {
      DrainZero(q, f, clock, i);
    } else {
      var k := Best(q, f, clock(i));
      BatchStep(q, f, clock, i, cap);
      BestIsFirst(q, f, clock, i, cap, now, s);
      if k.Some? {
        var mid := Without(q, k.value);
        BatchTail(q, f, clock, i, cap, now, s, k.value);
        BatchOut(mid, f, clock, i + 1, cap - 1, now, s[1..]);
        FrontOf(s, cap);
      }
    }
  }

  lemma BatchTail(
    q: seq<Entry>, f: Filter, clock: nat -> int, i: nat, cap: nat, now: int, s: seq<Entry>, k: nat)
    requires Arranged(q) && Steady(q, f, clock, i, cap, now) && IsStableSort(q, f, now, s) && cap > 0
    requires s != [] && k < |q| && s[0] == q[k]
    ensures var mid := Without(q, k);
            Arranged(mid) && Steady(mid, f, clock, i + 1, cap - 1, now) && IsStableSort(mid, f, now, s[1..])
  {
    TailIsSorted(q, f, now, s, k);
    SteadyTail(q, f, clock, i, cap, now, k);
  }

  /** The first entry of a batch and those after it. */
  lemma BatchStep(q: seq<Entry>, f: Filter, clock: nat -> int, i: nat, cap: nat)
    requires AllFinite(q) && cap > 0
    ensures var k := Best(q, f, clock(i));
            && (k.None? ==> Drain(q, f, clock, i, cap).out == [])
            && (k.Some? ==>
                  && AllFinite(Without(q, k.value))
                  && Drain(q, f, clock, i, cap).out ==
                       [q[k.value]] + Drain(Without(q, k.value), f, clock, i + 1, cap - 1).out)
  {
    DrainUnfolds(q, f, clock, i, cap);
  }

  lemma SteadyTail(q: seq<Entry>, f: Filter, clock: nat -> int, i: nat, cap: nat, now: int, k: nat)
    requires Steady(q, f, clock, i, cap, now) && k < |q| && cap > 0
    ensures Steady(Without(q, k), f, clock, i + 1, cap - 1, now)
  {
    assert forall e | e in Without(q, k) :: e in q;
  }

  lemma {:induction false} BatchRest(q: seq<Entry>, f: Filter, clock: nat -> int, i: nat, cap: nat)
    requires Arranged(q)
    ensures var b := Drain(q, f, clock, i, cap);
            Arranged(b.rest) && forall e :: e in b.rest <==> e in q && e !in b.out
    decreases cap
  {
    var k := Best(q, f, clock(i));
    if cap > 0 && k.Some? {
      WithoutArranged(q, k.value);
      BatchRest(Without(q, k.value), f, clock, i + 1, cap - 1);
      DrainUnfolds(q, f, clock, i, cap);
      var out := Drain(Without(q, k.value), f, clock, i + 1, cap - 1).out;
      assert forall e :: e in [q[k.value]] + out <==> e == q[k.value] || e in out;
    }
  }

  /** A batch yields the first entries of the stable sort by descending priority, as many as asked
      for, and leaves every other entry in the queue in arrival order. */
  lemma BatchIsStableSort(q: seq<Entry>, f: Filter, clock: nat -> int, max: nat, now: int, s: seq<Entry>)
    requires Arranged(q) && Steady(q, f, clock, 0, Capped(max), now) && IsStableSort(q, f, now, s)
    ensures var b := Drain(q, f, clock, 0, Capped(max));
            && b.out == s[..Min(Min(max, 10_000), |s|)]
            && Arranged(b.rest)
            && (forall e :: e in b.rest <==> e in q && e !in b.out)
            && (forall e | e in b.out :: e in q && Wanted(f, now, e) && e.priority.Finite?)
            && (forall i, j | 0 <= i < j < |b.out| :: Outranks(b.out[i], b.out[j]))
  {
    BatchOut(q, f, clock, 0, Capped(max), now, s);
    BatchRest(q, f, clock, 0, Capped(max));
    var out := Drain(q, f, clock, 0, Capped(max)).out;
    forall e | e in out ensures e in q && Wanted(f, now, e) && e.priority.Finite? {
      assert e in s;
      WantedIsMatched(f, now, e);
    }
    forall i, j | 0 <= i < j < |out| ensures Outranks(out[i], out[j]) {
      assert out[i] == s[i] && out[j] == s[j];
      BeforeIsOutranks(s[i], s[j]);
    }
  }

  /** A stable sort exists, and a long enough batch computes it. */
  lemma {:induction false} StableSortExists(q: seq<Entry>, f: Filter, now: int) returns (s: seq<Entry>)
    requires Arranged(q)
    ensures IsStableSort(q, f, now, s)
    decreases |q|
  {
    BestMeaning(q, f, now);
    var k := Best(q, f, now);
    if k.None? {
      s := [];
    } else {
      WithoutArranged(q, k.value);
      var tail := StableSortExists(Without(q, k.value), f, now);
      s := [q[k.value]] + tail;
      forall j | 0 <= j < |tail| ensures Before(s[0], tail[j]) {
        assert tail[j] in tail;
        var m :| 0 <= m < |q| && q[m] == tail[j];
        assert m != k.value;
      }
    }
  }

  // -- runs ---------------------------------------------------------------

  datatype Op =
    | Route(invocation: nat, task: Option<TaskId>, queue: string, priority: Float, notBefore: Option<int>)
    | Retrieve(filter: Filter, now: int)
    | Purge(task: Option<TaskId>)

  datatype Delivery = Delivery(entry: Entry, filter: Filter, now: int)

  /** The broker with its history: everything ever routed, delivered and purged. */
  datatype World = World(queue: seq<Entry>, routed: seq<Entry>, delivered: seq<Delivery>, purged: set<Entry>)

  const EMPTY := World([], [], [], {})

  function Next(w: World, op: Op): World
    requires AllFinite(w.queue)
  {
    match op
    case Route(invocation, task, queue, priority, notBefore) =>
      if !ValidRouting(queue, priority) then w
      else
        var e := Entry(|w.routed|, invocation, task, queue, priority, notBefore);
        w.(queue := w.queue + [e], routed := w.routed + [e])
    case Retrieve(f, now) =>
      if !ValidRouting(f.queue, ZERO) then w
      else
        var t := Take(w.queue, f, now);
        if t.entry.None? then w
        else w.(queue := t.rest, delivered := w.delivered + [Delivery(t.entry.value, f, now)])
    case Purge(task) =>
      w.(queue := Kept(w.queue, task), purged := w.purged + (set e | e in w.queue && e !in Kept(w.queue, task)))
  }

  ghost predicate WasDelivered(w: World, e: Entry) {
    exists i | 0 <= i < |w.delivered| :: w.delivered[i].entry == e
  }

  /** Each routed entry is in exactly one place. */
  ghost predicate Conserved(w: World) {
    && Arranged(w.queue)
    && (forall t | 0 <= t < |w.routed| :: w.routed[t].ticket == t)
    && (forall e | e in w.queue || WasDelivered(w, e) || e in w.purged :: e in w.routed)
    && (forall e | e in w.routed :: e in w.queue || WasDelivered(w, e) || e in w.purged)
    && (forall e | e in w.queue :: !WasDelivered(w, e) && e !in w.purged)
    && (forall e | e in w.purged :: !WasDelivered(w, e))
    && (forall i, j | 0 <= i < j < |w.delivered| :: w.delivered[i].entry != w.delivered[j].entry)
    && (forall d | d in w.delivered :: Matches(d.filter, d.now, d.entry))
  }

  lemma RouteConserves(w: World, op: Op)
    requires Conserved(w) && op.Route?
    ensures Conserved(Next(w, op))
  {
    if ValidRouting(op.queue, op.priority) {
      var v := Next(w, op);
      var n := |w.routed|;
      var e := v.routed[n];
      assert e !in w.routed by {
        forall t | 0 <= t < n ensures w.routed[t] != e { assert w.routed[t].ticket == t; }
      }
      forall x | x in w.queue ensures x.ticket < n {
        var t :| 0 <= t < n && w.routed[t] == x;
      }
      assert forall x :: WasDelivered(v, x) <==> WasDelivered(w, x);
    }
  }

  lemma RetrieveConserves(w: World, op: Op)
    requires Conserved(w) && op.Retrieve?
    ensures Conserved(Next(w, op))
  {
    var k := Best(w.queue, op.filter, op.now);
    if ValidRouting(op.filter.queue, ZERO) && k.Some? {
      BestMeaning(w.queue, op.filter, op.now);
      WithoutArranged(w.queue, k.value);
      var v := Next(w, op);
      var x := w.queue[k.value];
      forall e ensures WasDelivered(v, e) <==> WasDelivered(w, e) || e == x {
        if i :| 0 <= i < |w.delivered| && w.delivered[i].entry == e { assert v.delivered[i].entry == e; }
        if e == x { assert v.delivered[|w.delivered|].entry == e; }
      }
      forall i | 0 <= i < |w.delivered| ensures v.delivered[i].entry != x {
        assert WasDelivered(w, w.delivered[i].entry);
      }
    }
  }

  lemma PurgeConserves(w: World, op: Op)
    requires Conserved(w) && op.Purge?
    ensures Conserved(Next(w, op))
  {
    KeptArranged(w.queue, op.task);
    var v := Next(w, op);
    assert forall x :: WasDelivered(v, x) <==> WasDelivered(w, x);
  }

  lemma NextConserves(w: World, op: Op)
    requires Conserved(w)
    ensures Conserved(Next(w, op))
  {
    match op
    case Route(_, _, _, _, _) => RouteConserves(w, op);
    case Retrieve(_, _) => RetrieveConserves(w, op);
    case Purge(_) => PurgeConserves(w, op);
  }

  lemma NextFinite(w: World, op: Op)
    requires AllFinite(w.queue)
    ensures AllFinite(Next(w, op).queue)
  {
    match op
    case Route(_, _, _, _, _) =>
    case Retrieve(f, now) =>
      var k := Best(w.queue, f, now);
      if k.Some? { TakeFinite(w.queue, k.value); }
    case Purge(task) => KeptFinite(w.queue, task);
  }

  function After(ops: seq<Op>): (w: World)
    ensures AllFinite(w.queue)
  {
    if ops == [] then EMPTY
    else
      var w := After(ops[..|ops| - 1]);
      NextFinite(w, ops[|ops| - 1]);
      Next(w, ops[|ops| - 1])
  }

  /** Over every run each routed entry is in exactly one of the queue, the deliveries and the purged
      entries. */
  lemma {:induction false} RunConserves(ops: seq<Op>)
    ensures Conserved(After(ops))
  {
    if ops != [] {
      RunConserves(ops[..|ops| - 1]);
      NextConserves(After(ops[..|ops| - 1]), ops[|ops| - 1]);
    }
  }

  /** Over every run: a delivered entry was routed, is delivered once, is neither queued nor purged, and
      was due when it was delivered. */
  lemma DeliveredOnceAndNotEarly(ops: seq<Op>, i: nat)
    requires i < |After(ops).delivered|
    ensures var w := After(ops); var d := w.delivered[i];
            && d.entry in w.routed && d.entry !in w.queue && d.entry !in w.purged
            && (d.entry.notBefore.None? || d.entry.notBefore.value <= d.now) && Wanted(d.filter, d.now, d.entry)
            && forall j | 0 <= j < |w.delivered| && j != i :: w.delivered[j].entry != d.entry
  {
    var w := After(ops);
    RunConserves(ops);
    assert WasDelivered(w, w.delivered[i].entry);
    assert w.delivered[i] in w.delivered;
    WantedIsMatched(w.delivered[i].filter, w.delivered[i].now, w.delivered[i].entry);
  }

  // -- language isolation -------------------------------------------------

  function View(q: seq<Entry>, language: Language): set<Entry> {
    set e | e in q && LanguageOf(e) == language
  }

  /** The one language whose entries a retrieval can take: a task names its language. */
  function Serves(f: Filter): Option<Language> {
    match f
    case ForLanguage(_, language) => Some(language)
    case ForTask(_, task) => if task.Some? then Some(task.value.language) else None
  }

  lemma MatchesServed(f: Filter, now: int, e: Entry)
    requires Matches(f, now, e) && Serves(f).Some?
    ensures LanguageOf(e) == Serves(f).value
  {
  }

  /** What a retrieval for one language gets depends only on the entries of that language. */
  lemma TakeFromView(p: seq<Entry>, q: seq<Entry>, f: Filter, now: int, language: Language)
    requires Arranged(p) && Arranged(q) && View(p, language) == View(q, language) && Serves(f) == Some(language)
    ensures Take(p, f, now).entry == Take(q, f, now).entry
    ensures View(Take(p, f, now).rest, language) == View(Take(q, f, now).rest, language)
  {
    BestMeaning(p, f, now);
    BestMeaning(q, f, now);
    var a, b := Best(p, f, now), Best(q, f, now);
    assert forall e :: e in p && LanguageOf(e) == language <==> e in View(p, language);
    assert forall e :: e in q && LanguageOf(e) == language <==> e in View(q, language);
    if a.Some? {
      MatchesServed(f, now, p[a.value]);
      assert p[a.value] in View(q, language);
    }
    if b.Some? {
      MatchesServed(f, now, q[b.value]);
      assert q[b.value] in View(p, language);
    }
    if a.Some? && b.Some? {
      BestBeats(q, f, now, b.value, p[a.value]);
      BestBeats(p, f, now, a.value, q[b.value]);
      WithoutArranged(p, a.value);
      WithoutArranged(q, b.value);
    }
  }

  lemma TakeElsewhere(q: seq<Entry>, f: Filter, now: int, language: Language)
    requires Arranged(q) && Serves(f).Some? && Serves(f).value != language
    ensures View(Take(q, f, now).rest, language) == View(q, language)
  {
    BestMeaning(q, f, now);
    var k := Best(q, f, now);
    if k.Some? {
      MatchesServed(f, now, q[k.value]);
      WithoutArranged(q, k.value);
    }
  }

  /** Every call but a retrieval that names neither a language nor a task, from a valid queue. */
  predicate Isolated(op: Op) {
    op.Retrieve? ==> Serves(op.filter).Some? || !ValidRouting(op.filter.queue, ZERO)
  }

  ghost predicate AllIsolated(ops: seq<Op>) { forall op | op in ops :: Isolated(op) }

  predicate Elsewhere(op: Op, language: Language) {
    op.Retrieve? && Serves(op.filter).Some? && Serves(op.filter).value != language
  }

  function Erase(ops: seq<Op>, language: Language): seq<Op> {
    if ops == [] then []
    else Erase(ops[..|ops| - 1], language) + if Elsewhere(ops[|ops| - 1], language) then [] else [ops[|ops| - 1]]
  }

  /** The entries delivered to one language, in order. */
  function DeliveredTo(ds: seq<Delivery>, language: Language): seq<Entry> {
    if ds == [] then []
    else
      var d := ds[|ds| - 1];
      DeliveredTo(ds[..|ds| - 1], language)
        + if Serves(d.filter) == Some(language) then [d.entry] else []
  }

  lemma DeliveredToAppend(ds: seq<Delivery>, d: Delivery, language: Language)
    ensures DeliveredTo(ds + [d], language) ==
            DeliveredTo(ds, language) + if Serves(d.filter) == Some(language) then [d.entry] else []
  {
    assert (ds + [d])[..|ds|] == ds;
  }

  /** Two worlds that look the same to one language. */
  ghost predicate Alike(v: World, w: World, language: Language) {
    && v.routed == w.routed
    && View(v.queue, language) == View(w.queue, language)
    && DeliveredTo(v.delivered, language) == DeliveredTo(w.delivered, language)
  }

  /** What one retrieval changes. */
  lemma Retrieved(w: World, f: Filter, now: int, language: Language)
    requires AllFinite(w.queue) && ValidRouting(f.queue, ZERO)
    ensures var t, v := Take(w.queue, f, now), Next(w, Retrieve(f, now));
            && v.routed == w.routed && v.queue == t.rest
            && DeliveredTo(v.delivered, language) == DeliveredTo(w.delivered, language)
                 + if t.entry.Some? && Serves(f) == Some(language) then [t.entry.value] else []
  {
    var t := Take(w.queue, f, now);
    if t.entry.Some? { DeliveredToAppend(w.delivered, Delivery(t.entry.value, f, now), language); }
  }

  lemma SameRetrievalAlike(v: World, w: World, f: Filter, now: int, language: Language)
    requires Arranged(v.queue) && Arranged(w.queue) && Alike(v, w, language)
    requires Serves(f) == Some(language) && ValidRouting(f.queue, ZERO)
    ensures Alike(Next(v, Retrieve(f, now)), Next(w, Retrieve(f, now)), language)
  {
    TakeFromView(v.queue, w.queue, f, now, language);
    Retrieved(v, f, now, language);
    Retrieved(w, f, now, language);
  }

  lemma SameStepAlike(v: World, w: World, op: Op, language: Language)
    requires Arranged(v.queue) && Arranged(w.queue) && Alike(v, w, language)
    requires Isolated(op) && !Elsewhere(op, language)
    ensures Alike(Next(v, op), Next(w, op), language)
  {
    match op
    case Route(_, _, _, _, _) =>
      if ValidRouting(op.queue, op.priority) {
        var e := Entry(|w.routed|, op.invocation, op.task, op.queue, op.priority, op.notBefore);
        assert View(v.queue + [e], language) == View(v.queue, language) + if LanguageOf(e) == language then {e} else {};
        assert View(w.queue + [e], language) == View(w.queue, language) + if LanguageOf(e) == language then {e} else {};
      }
    case Retrieve(f, now) =>
      if ValidRouting(f.queue, ZERO) { SameRetrievalAlike(v, w, f, now, language); }
    case Purge(task) =>
      KeptArranged(v.queue, task);
      KeptArranged(w.queue, task);
      forall e ensures e in View(Kept(v.queue, task), language) <==> e in View(Kept(w.queue, task), language) {
        assert e in View(v.queue, language) <==> e in View(w.queue, language);
      }
  }

  lemma OtherStepAlike(v: World, w: World, op: Op, language: Language)
    requires Arranged(v.queue) && Alike(v, w, language) && Elsewhere(op, language)
    ensures Alike(Next(v, op), w, language)
  {
    if ValidRouting(op.filter.queue, ZERO) {
      TakeElsewhere(v.queue, op.filter, op.now, language);
      Retrieved(v, op.filter, op.now, language);
    }
  }

  /** In every run of routings, purges and retrievals that name a language or a task, the sequence
      delivered to one language is the same as if no other language had ever retrieved anything. */
  lemma {:induction false} LanguagesAreIsolated(ops: seq<Op>, language: Language)
    requires AllIsolated(ops)
    ensures Alike(After(ops), After(Erase(ops, language)), language)
  {
    if ops != [] {
      var n := |ops| - 1;
      LanguagesAreIsolated(ops[..n], language);
      var w, e := After(ops[..n]), Erase(ops[..n], language);
      RunConserves(ops[..n]);
      RunConserves(e);
      if Elsewhere(ops[n], language) {
        OtherStepAlike(w, After(e), ops[n], language);
        assert Erase(ops, language) == e;
      } else {
        assert (e + [ops[n]])[..|e|] == e;
        SameStepAlike(w, After(e), ops[n], language);
      }
    }
  }

  // -- exactly which calls keep languages apart ---------------------------

  ghost predicate SameDeliveries(ops: seq<Op>, language: Language) {
    DeliveredTo(After(ops).delivered, language) == DeliveredTo(After(Erase(ops, language)).delivered, language)
  }

  /** Adding the call to isolated runs, anywhere, leaves what `language` gets unchanged by the others. */
  ghost predicate Harmless(op: Op, language: Language) {
    forall before, after | AllIsolated(before) && AllIsolated(after) :: SameDeliveries(before + [op] + after, language)
  }

  lemma AfterAppend(ops: seq<Op>, op: Op, language: Language)
    ensures After(ops + [op]) == Next(After(ops), op)
    ensures Erase(ops + [op], language) == Erase(ops, language) + if Elsewhere(op, language) then [] else [op]
  {
    assert (ops + [op])[..|ops|] == ops;
  }

  function Work(invocation: nat, language: Language, queue: string): Op {
    Route(invocation, Some(TaskId(language, 0)), queue, ZERO, None)
  }

  function Queued(ticket: nat, language: Language, queue: string): Entry {
    Entry(ticket, ticket, Some(TaskId(language, 0)), queue, ZERO, None)
  }

  lemma RoutedWork(ops: seq<Op>, language: Language, queue: string)
    requires ValidRouting(queue, ZERO)
    ensures var n := |After(ops).routed|; var w := After(ops + [Work(n, language, queue)]);
            && w.queue == After(ops).queue + [Queued(n, language, queue)]
            && |w.routed| == n + 1 && w.delivered == After(ops).delivered
  {
    AfterAppend(ops, Work(|After(ops).routed|, language, queue), language);
  }

  /** Taking from a queue whose first entry matches and ties with every other. */
  lemma FirstIsTaken(q: seq<Entry>, f: Filter, now: int)
    requires Arranged(q) && q != [] && Matches(f, now, q[0])
    requires forall e | e in q :: e.priority == ZERO
    ensures Take(q, f, now).entry == Some(q[0]) && Take(q, f, now).rest == q[1..]
  {
    BestMeaning(q, f, now);
    assert q[0] in q;
    var k := Best(q, f, now).value;
    BestBeats(q, f, now, k, q[0]);
    assert q[0].ticket <= q[k].ticket;
    assert q[..0] + q[1..] == q[1..];
  }

  lemma TakesFirst(ops: seq<Op>, f: Filter, now: int, language: Language, first: Entry, rest: seq<Entry>)
    requires ValidRouting(f.queue, ZERO) && After(ops).queue == [first] + rest && Matches(f, now, first)
    requires forall e | e in [first] + rest :: e.priority == ZERO
    ensures var w, v := After(ops), After(ops + [Retrieve(f, now)]);
            && v.queue == rest
            && DeliveredTo(v.delivered, language) ==
               DeliveredTo(w.delivered, language) + if Serves(f) == Some(language) then [first] else []
  {
    RunConserves(ops);
    FirstIsTaken([first] + rest, f, now);
    AfterAppend(ops, Retrieve(f, now), language);
    Retrieved(After(ops), f, now, language);
    assert ([first] + rest)[1..] == rest;
  }

  lemma TakesNothing(ops: seq<Op>, f: Filter, now: int, language: Language)
    requires After(ops).queue == []
    ensures After(ops + [Retrieve(f, now)]) == After(ops)
  {
    AfterAppend(ops, Retrieve(f, now), language);
    NothingTaken(After(ops), f, now);
  }

  lemma NothingTaken(w: World, f: Filter, now: int)
    requires w.queue == []
    ensures Next(w, Retrieve(f, now)) == w
  {
  }

  /** One queue of work for another language followed by work for `language`. */
  ghost predicate Waiting(ops: seq<Op>, other: Language, language: Language, queue: string) {
    var w := After(ops);
    && other != language && ValidRouting(queue, ZERO)
    && w.queue == [Queued(0, other, queue), Queued(1, language, queue)]
    && DeliveredTo(w.delivered, language) == [] && Erase(ops, language) == ops && AllIsolated(ops)
  }

  function Two(other: Language, language: Language, queue: string): seq<Op> {
    [Work(0, other, queue)] + [Work(1, language, queue)]
  }

  lemma TwoWaiting(other: Language, language: Language, queue: string)
    requires ValidRouting(queue, ZERO) && other != language
    ensures Waiting(Two(other, language, queue), other, language, queue)
  {
    var one := [Work(0, other, queue)];
    RoutedWork([], other, queue);
    assert [] + one == one;
    RoutedWork(one, language, queue);
    AfterAppend([], Work(0, other, queue), language);
    AfterAppend(one, Work(1, language, queue), language);
  }

  /** After the other language took its entry, the unfiltered retrieval takes the one of `language`. */
  lemma DisturbedRun(ops: seq<Op>, other: Language, language: Language, queue: string, now: int)
    requires Waiting(ops, other, language, queue)
    ensures var run := ops + [Retrieve(ForLanguage(queue, other), now)] + [Retrieve(ForTask(queue, None), now)]
                         + [Retrieve(ForLanguage(queue, language), now)];
            DeliveredTo(After(run).delivered, language) == []
  {
    var p, r := Queued(0, other, queue), Queued(1, language, queue);
    var taken := ops + [Retrieve(ForLanguage(queue, other), now)];
    var drained := taken + [Retrieve(ForTask(queue, None), now)];
    assert [p, r] == [p] + [r] && [r] == [r] + [];
    TakesFirst(ops, ForLanguage(queue, other), now, language, p, [r]);
    TakesFirst(taken, ForTask(queue, None), now, language, r, []);
    TakesNothing(drained, ForLanguage(queue, language), now, language);
  }

  /** Otherwise it takes the other language's entry, and `language` gets its own. */
  lemma UndisturbedRun(ops: seq<Op>, other: Language, language: Language, queue: string, now: int)
    requires Waiting(ops, other, language, queue)
    ensures var run := ops + [Retrieve(ForTask(queue, None), now)] + [Retrieve(ForLanguage(queue, language), now)];
            DeliveredTo(After(run).delivered, language) == [Queued(1, language, queue)]
  {
    var p, r := Queued(0, other, queue), Queued(1, language, queue);
    assert [p, r] == [p] + [r] && [r] == [r] + [];
    TakesFirst(ops, ForTask(queue, None), now, language, p, [r]);
    TakesFirst(ops + [Retrieve(ForTask(queue, None), now)], ForLanguage(queue, language), now, language, r, []);
  }

  lemma ErasedRun(ops: seq<Op>, theirs: Op, any: Op, mine: Op, language: Language)
    requires Erase(ops, language) == ops
    requires Elsewhere(theirs, language) && !Elsewhere(any, language) && !Elsewhere(mine, language)
    ensures Erase(ops + [theirs] + [any] + [mine], language) == ops + [any] + [mine]
  {
    AfterAppend(ops, theirs, language);
    assert ops + [] == ops;
    AfterAppend(ops + [theirs], any, language);
    AfterAppend(ops + [theirs] + [any], mine, language);
  }

  /** Work for another language and work for `language` arrive, and the other language takes its own. */
  function Prelude(other: Language, language: Language, queue: string, now: int): seq<Op> {
    Two(other, language, queue) + [Retrieve(ForLanguage(queue, other), now)]
  }

  lemma PreludeIsolated(other: Language, language: Language, queue: string, now: int)
    requires Waiting(Two(other, language, queue), other, language, queue)
    ensures AllIsolated(Prelude(other, language, queue, now))
    ensures AllIsolated([Retrieve(ForLanguage(queue, language), now)])
  {
  }

  lemma Differ(ops: seq<Op>, erased: seq<Op>, e: Entry, language: Language)
    requires Erase(ops, language) == erased
    requires DeliveredTo(After(ops).delivered, language) == []
    requires DeliveredTo(After(erased).delivered, language) == [e]
    ensures !SameDeliveries(ops, language)
  {
  }

  lemma DifferentDeliveries(ops: seq<Op>, other: Language, language: Language, queue: string, now: int)
    requires Waiting(ops, other, language, queue)
    ensures !SameDeliveries(
              ops + [Retrieve(ForLanguage(queue, other), now)] + [Retrieve(ForTask(queue, None), now)]
                + [Retrieve(ForLanguage(queue, language), now)], language)
  {
    var theirs, any := Retrieve(ForLanguage(queue, other), now), Retrieve(ForTask(queue, None), now);
    var mine := Retrieve(ForLanguage(queue, language), now);
    DisturbedRun(ops, other, language, queue, now);
    UndisturbedRun(ops, other, language, queue, now);
    ErasedRun(ops, theirs, any, mine, language);
    Differ(ops + [theirs] + [any] + [mine], ops + [any] + [mine], Queued(1, language, queue), language);
  }

  /** A concrete run in which what one language gets depends on the other: an unfiltered retrieval
      from any valid queue, at any time. */
  lemma UnfilteredRetrievalDisturbs(other: Language, language: Language, queue: string, now: int)
    requires ValidRouting(queue, ZERO) && other != language
    ensures var before, mine := Prelude(other, language, queue, now), [Retrieve(ForLanguage(queue, language), now)];
            && AllIsolated(before) && AllIsolated(mine)
            && !SameDeliveries(before + [Retrieve(ForTask(queue, None), now)] + mine, language)
  {
    TwoWaiting(other, language, queue);
    PreludeIsolated(other, language, queue, now);
    DifferentDeliveries(Two(other, language, queue), other, language, queue, now);
  }

  /** A call keeps languages apart in every run if and only if it is not a retrieval, from a valid
      queue, that names neither a language nor a task. */
  lemma HarmlessIff(op: Op, language: Language)
    ensures Harmless(op, language) <==> Isolated(op)
  {
    if Isolated(op) {
      forall before, after | AllIsolated(before) && AllIsolated(after)
        ensures SameDeliveries(before + [op] + after, language)
      {
        LanguagesAreIsolated(before + [op] + after, language);
      }
    } else {
      var other := if language == Rust then Python else Rust;
      UnfilteredRetrievalDisturbs(other, language, op.filter.queue, op.now);
      var before := Prelude(other, language, op.filter.queue, op.now);
      var after := [Retrieve(ForLanguage(op.filter.queue, language), op.now)];
      assert AllIsolated(before) && AllIsolated(after) && !SameDeliveries(before + [op] + after, language);
    }
  }
}
