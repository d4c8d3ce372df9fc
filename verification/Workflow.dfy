/**
 Deterministic workflow replay: sequence counters, stored operation results and
 the workflow base time, with backend failures and crashes at every call.
 */
module Workflow {

  import opened Wrappers

  /** The name an operation counts its calls under. */
  datatype Operation = Random | Uuid | Time | Other(name: nat)

  /** A stored text: an RFC 3339 instant, in nanoseconds, or any other text. */
  datatype Value = Instant(nanos: int) | Text(token: nat)

  /** The keys of one workflow's data: `<operation>:<sequence>`, `counter:<operation>` and
      `workflow:base_time`. */
  datatype Key = Stored(op: Operation, sequence: nat) | Total(op: Operation) | BaseTime

  type Data = map<Key, Value>
  type Counters = map<Operation, nat>

  const SECOND: int := 1_000_000_000

  /** Where a backend call fails or the process dies inside one operation. A write can be lost or
      applied although the caller sees a failure. */
  datatype Fault =
    | NoFault
    | GetFails
    | SetLost | SetApplied
    | TotalGetFails
    | TotalSetLost | TotalSetApplied

  datatype BaseFault = BaseOk | BaseGetFails | BaseSetLost | BaseSetApplied

  /** The workflow data, the counters and, unless the call failed, the value returned. */
  datatype Outcome = Outcome(data: Data, counters: Counters, value: Option<Value>)

  datatype Based = Based(data: Data, base: Option<int>)

  function CountOf(counters: Counters, op: Operation): nat {
    if op in counters then counters[op] else 0
  }

  function TotalOf(data: Data, op: Operation): nat {
    if Total(op) in data && data[Total(op)].Text? then data[Total(op)].token else 0
  }

  function Max(a: nat, b: nat): nat { if a > b then a else b }

  /** `deterministic_operation`; `generated` is what the generator would produce. */
  function Operate(data: Data, counters: Counters, op: Operation, generated: Value, fault: Fault): Outcome {
    var n := CountOf(counters, op) + 1;
    var counted := counters[op := n];
    var key := Stored(op, n);
    if fault == GetFails then Outcome(data, counted, None)
    else if key in data then Outcome(data, counted, Some(data[key]))
    else if fault == SetLost then Outcome(data, counted, None)
    else
      var stored := data[key := generated];
      if fault == SetApplied || fault == TotalGetFails || fault == TotalSetLost then Outcome(stored, counted, None)
      else
        var total := stored[Total(op) := Text(Max(TotalOf(stored, op), n))];
        Outcome(total, counted, if fault == TotalSetApplied then None else Some(generated))
  }

  function ParseTime(v: Value, now: int): int {
    if v.Instant? then v.nanos else now
  }

  /** `get_base_time`: read it or establish it at `now`. */
  function Base(data: Data, now: int, fault: BaseFault): Based {
    if fault == BaseGetFails then Based(data, None)
    else if BaseTime in data then Based(data, Some(ParseTime(data[BaseTime], now)))
    else if fault == BaseSetLost then Based(data, None)
    else Based(data[BaseTime := Instant(now)], if fault == BaseSetApplied then None else Some(now))
  }

  /** The time operation, once the base time is known. */
  function FromBase(data: Data, counters: Counters, base: int, fault: Fault): Outcome {
    Operate(data, counters, Time, Instant(base + (CountOf(counters, Time) + 1) * SECOND), fault)
  }

  /** `utc_now`: the base time advanced by one second per call. */
  function Advance(data: Data, counters: Counters, now: int, baseFault: BaseFault, fault: Fault): Outcome {
    var b := Base(data, now, baseFault);
    if b.base.None? then Outcome(b.data, counters, None) else FromBase(b.data, counters, b.base.value, fault)
  }

  // -- the executor in its own form ---------------------------------------

  /** The state backend's data of one workflow; it outlives executors. */
  class Backend {
    var data: Data

    constructor ()
      ensures data == map[]
    {
      data := map[];
    }
  }

  class DeterministicExecutor {
    const backend: Backend
    var operationCounters: Counters

    constructor (backend: Backend)
      ensures this.backend == backend && operationCounters == map[]
    {
      this.backend := backend;
      operationCounters := map[];
    }

    method GetNextSequence(op: Operation) returns (n: nat)
      modifies this
      ensures n == CountOf(old(operationCounters), op) + 1
      ensures operationCounters == old(operationCounters)[op := n]
    {
      n := (if op in operationCounters then operationCounters[op] else 0) + 1;
      operationCounters := operationCounters[op := n];
    }

    method DeterministicOperation(op: Operation, generated: Value, fault: Fault) returns (r: Option<Value>)
      modifies this, backend
      ensures Outcome(backend.data, operationCounters, r) ==
              Operate(old(backend.data), old(operationCounters), op, generated, fault)
    {
      var n := GetNextSequence(op);
      if fault == GetFails { return None; }
      if Stored(op, n) in backend.data { return Some(backend.data[Stored(op, n)]); }
      if fault == SetLost { return None; }
      backend.data := backend.data[Stored(op, n) := generated];
      if fault == SetApplied || fault == TotalGetFails { return None; }
      var total := TotalOf(backend.data, op);
      if fault == TotalSetLost { return None; }
      backend.data := backend.data[Total(op) := Text(if total > n then total else n)];
      if fault == TotalSetApplied { return None; }
      r := Some(generated);
    }

    method GetBaseTime(now: int, fault: BaseFault) returns (r: Option<int>)
      modifies backend
      ensures Based(backend.data, r) == Base(old(backend.data), now, fault)
    {
      if fault == BaseGetFails { return None; }
      if BaseTime in backend.data { return Some(ParseTime(backend.data[BaseTime], now)); }
      if fault == BaseSetLost { return None; }
      backend.data := backend.data[BaseTime := Instant(now)];
      r := if fault == BaseSetApplied then None else Some(now);
    }

    method UtcNow(now: int, baseFault: BaseFault, fault: Fault) returns (r: Option<Value>)
      modifies this, backend
      ensures Outcome(backend.data, operationCounters, r) ==
              Advance(old(backend.data), old(operationCounters), now, baseFault, fault)
    {
      var base := GetBaseTime(now, baseFault);
      if base.None? { return None; }
      var n := CountOf(operationCounters, Time) + 1;
      r := DeterministicOperation(Time, Instant(base.value + n * SECOND), fault);
    }
  }

  // -- runs: one executor at a time, failing or dying anywhere ------------

  /** `goesOn` says whether the executor is used again if this call fails. */
  datatype Event =
    | Start                                                                          // a new executor
    | Call(op: Operation, generated: Value, fault: Fault, goesOn: bool)              // `random`, `uuid`, ...
    | TimeCall(now: int, baseFault: BaseFault, fault: Fault, goesOn: bool)           // `utc_now`

  datatype Returned = Returned(op: Operation, sequence: nat, value: Value)

  datatype World = World(data: Data, executor: Option<Counters>, returned: seq<Returned>)

  const EMPTY := World(map[], None, [])

  /** Only `utc_now` uses the time operation. */
  predicate Allowed(e: Event) { e.Call? ==> e.op != Time }

  function Settle(w: World, op: Operation, r: Outcome, goesOn: bool): World {
    if r.value.None? then w.(data := r.data, executor := if goesOn then Some(r.counters) else None)
    else World(r.data, Some(r.counters), w.returned + [Returned(op, CountOf(r.counters, op), r.value.value)])
  }

  function Next(w: World, e: Event): World {
    match e
    case Start => w.(executor := Some(map[]))
    case Call(op, generated, fault, goesOn) =>
      if w.executor.None? then w else Settle(w, op, Operate(w.data, w.executor.value, op, generated, fault), goesOn)
    case TimeCall(now, baseFault, fault, goesOn) =>
      if w.executor.None? then w
      else Settle(w, Time, Advance(w.data, w.executor.value, now, baseFault, fault), goesOn)
  }

  function From(w: World, events: seq<Event>): World {
    if events == [] then w else Next(From(w, events[..|events| - 1]), events[|events| - 1])
  }

  function After(events: seq<Event>): World { From(EMPTY, events) }

  // -- nothing stored is ever overwritten ---------------------------------

  /** Nothing but a total count is ever overwritten. */
  ghost predicate Extends(a: Data, b: Data) {
    forall k | k in a && !k.Total? :: k in b && b[k] == a[k]
  }

  lemma ExtendsTransitive(a: Data, b: Data, c: Data)
    requires Extends(a, b) && Extends(b, c)
    ensures Extends(a, c)
  {
  }

  lemma OperateExtends(data: Data, counters: Counters, op: Operation, generated: Value, fault: Fault)
    ensures var r := Operate(data, counters, op, generated, fault);
            && Extends(data, r.data)
            && CountOf(r.counters, op) == CountOf(counters, op) + 1
            && (r.value.Some? ==>
                  && Stored(op, CountOf(r.counters, op)) in r.data
                  && r.data[Stored(op, CountOf(r.counters, op))] == r.value.value)
            && (forall k | k in r.data && k !in data ::
                  k == Total(op) || (k == Stored(op, CountOf(counters, op) + 1) && r.data[k] == generated))
  {
  }

  lemma BaseExtends(data: Data, now: int, fault: BaseFault)
    ensures var b := Base(data, now, fault);
            && Extends(data, b.data)
            && (forall k | k in b.data && k !in data :: k == BaseTime && b.data[k] == Instant(now))
            && (b.base.Some? ==> BaseTime in b.data)
  {
  }

  lemma AdvanceExtends(data: Data, counters: Counters, now: int, baseFault: BaseFault, fault: Fault)
    ensures var r := Advance(data, counters, now, baseFault, fault);
            && Extends(data, r.data)
            && (r.value.Some? ==>
                  && Stored(Time, CountOf(r.counters, Time)) in r.data
                  && r.data[Stored(Time, CountOf(r.counters, Time))] == r.value.value)
  {
    BaseExtends(data, now, baseFault);
    var b := Base(data, now, baseFault);
    if b.base.Some? {
      var t := Instant(b.base.value + (CountOf(counters, Time) + 1) * SECOND);
      OperateExtends(b.data, counters, Time, t, fault);
      ExtendsTransitive(data, b.data, Operate(b.data, counters, Time, t, fault).data);
    }
  }

  /** Every value returned is stored. */
  ghost predicate ReturnedStored(w: World) {
    forall r | r in w.returned :: Stored(r.op, r.sequence) in w.data && w.data[Stored(r.op, r.sequence)] == r.value
  }

  lemma SettleStored(w: World, op: Operation, r: Outcome, goesOn: bool)
    requires ReturnedStored(w) && Extends(w.data, r.data)
    requires r.value.Some? ==>
               && Stored(op, CountOf(r.counters, op)) in r.data
               && r.data[Stored(op, CountOf(r.counters, op))] == r.value.value
    ensures ReturnedStored(Settle(w, op, r, goesOn))
  {
    var v := Settle(w, op, r, goesOn);
    forall x | x in v.returned
      ensures Stored(x.op, x.sequence) in v.data && v.data[Stored(x.op, x.sequence)] == x.value
    {
      if x in w.returned { assert Stored(x.op, x.sequence) in w.data; }
    }
  }

  lemma NextExtends(w: World, e: Event)
    ensures Extends(w.data, Next(w, e).data)
    ensures ReturnedStored(w) ==> ReturnedStored(Next(w, e))
  {
    if !e.Start? && w.executor.Some? {
      var counters := w.executor.value;
      match e
      case Call(op, generated, fault, goesOn) =>
        OperateExtends(w.data, counters, op, generated, fault);
        if ReturnedStored(w) { SettleStored(w, op, Operate(w.data, counters, op, generated, fault), goesOn); }
      case TimeCall(now, baseFault, fault, goesOn) =>
        AdvanceExtends(w.data, counters, now, baseFault, fault);
        if ReturnedStored(w) { SettleStored(w, Time, Advance(w.data, counters, now, baseFault, fault), goesOn); }
    }
  }

  /** From any state on, over any history of executors, failures and crashes, no stored result and no
      base time is ever overwritten. */
  lemma {:induction false} NeverOverwritten(w: World, events: seq<Event>)
    ensures Extends(w.data, From(w, events).data)
    ensures ReturnedStored(w) ==> ReturnedStored(From(w, events))
  {
    if events != [] {
      var n := |events| - 1;
      NeverOverwritten(w, events[..n]);
      NextExtends(From(w, events[..n]), events[n]);
      ExtendsTransitive(w.data, From(w, events[..n]).data, From(w, events).data);
    }
  }

  /** Over any history, also of executors that go on after failures, two returns of the same operation
      and sequence give the same value. */
  lemma ReplayIsDeterministic(events: seq<Event>, i: nat, j: nat)
    requires i < |After(events).returned| && j < |After(events).returned|
    ensures var a, b := After(events).returned[i], After(events).returned[j];
            a.op == b.op && a.sequence == b.sequence ==> a.value == b.value
  {
    NeverOverwritten(EMPTY, events);
    var w := After(events);
    assert w.returned[i] in w.returned && w.returned[j] in w.returned;
  }

  // -- times --------------------------------------------------------------

  /** Every stored time is the base time advanced by its sequence. */
  ghost predicate TimesBased(data: Data) {
    && (BaseTime in data ==> data[BaseTime].Instant?)
    && (forall n: nat | Stored(Time, n) in data ::
          BaseTime in data && data[Stored(Time, n)] == Instant(data[BaseTime].nanos + n * SECOND))
  }

  lemma BaseTimes(data: Data, now: int, fault: BaseFault)
    requires TimesBased(data)
    ensures var b := Base(data, now, fault);
            TimesBased(b.data) && (b.base.Some? ==> BaseTime in b.data && b.data[BaseTime] == Instant(b.base.value))
  {
  }

  lemma FromBaseTimes(data: Data, counters: Counters, base: int, fault: Fault)
    requires TimesBased(data) && BaseTime in data && data[BaseTime] == Instant(base)
    ensures TimesBased(FromBase(data, counters, base, fault).data)
  {
    var generated := Instant(base + (CountOf(counters, Time) + 1) * SECOND);
    OperateExtends(data, counters, Time, generated, fault);
    var r := FromBase(data, counters, base, fault);
    assert BaseTime in r.data && r.data[BaseTime] == data[BaseTime];
    forall n: nat | Stored(Time, n) in r.data
      ensures r.data[Stored(Time, n)] == Instant(base + n * SECOND)
    {
      if Stored(Time, n) in data { assert r.data[Stored(Time, n)] == data[Stored(Time, n)]; }
    }
  }

  lemma OtherTimes(data: Data, counters: Counters, op: Operation, generated: Value, fault: Fault)
    requires TimesBased(data) && op != Time
    ensures TimesBased(Operate(data, counters, op, generated, fault).data)
  {
    OperateExtends(data, counters, op, generated, fault);
  }

  lemma NextTimes(w: World, e: Event)
    requires TimesBased(w.data) && Allowed(e)
    ensures TimesBased(Next(w, e).data)
  {
    if !e.Start? && w.executor.Some? {
      match e
      case Call(op, generated, fault, _) => OtherTimes(w.data, w.executor.value, op, generated, fault);
      case TimeCall(now, baseFault, fault, _) =>
        BaseTimes(w.data, now, baseFault);
        var b := Base(w.data, now, baseFault);
        if b.base.Some? { FromBaseTimes(b.data, w.executor.value, b.base.value, fault); }
    }
  }

  lemma {:induction false} AfterTimes(events: seq<Event>)
    requires forall e | e in events :: Allowed(e)
    ensures TimesBased(After(events).data)
  {
    if events != [] {
      var n := |events| - 1;
      AfterTimes(events[..n]);
      NextTimes(After(events[..n]), events[n]);
    }
  }

  /** Every value of `utc_now` is the stored base time and one second per call: so they strictly increase
      with their sequence, even across crashes. */
  lemma TimesIncrease(events: seq<Event>, i: nat, j: nat)
    requires forall e | e in events :: Allowed(e)
    requires i < |After(events).returned| && j < |After(events).returned|
    requires After(events).returned[i].op == Time && After(events).returned[j].op == Time
    ensures var a, b := After(events).returned[i], After(events).returned[j];
            && a.value.Instant? && b.value.Instant?
            && b.value.nanos - a.value.nanos == (b.sequence - a.sequence) * 1_000_000_000
            && BaseTime in After(events).data
            && After(events).data[BaseTime] == Instant(a.value.nanos - a.sequence * 1_000_000_000)
  {
    NeverOverwritten(EMPTY, events);
    AfterTimes(events);
    var w := After(events);
    assert w.returned[i] in w.returned && w.returned[j] in w.returned;
  }

  // -- the total count ----------------------------------------------------

  /** A total count names a stored sequence. */
  ghost predicate TotalsStored(data: Data) {
    forall op | Total(op) in data ::
      data[Total(op)].Text? && data[Total(op)].token >= 1 && Stored(op, data[Total(op)].token) in data
  }

  lemma OperateTotals(data: Data, counters: Counters, op: Operation, generated: Value, fault: Fault)
    requires TotalsStored(data)
    ensures TotalsStored(Operate(data, counters, op, generated, fault).data)
  {
    var r := Operate(data, counters, op, generated, fault);
    OperateExtends(data, counters, op, generated, fault);
    forall o | Total(o) in r.data
      ensures r.data[Total(o)].Text? && r.data[Total(o)].token >= 1 && Stored(o, r.data[Total(o)].token) in r.data
    {
      if o != op { assert Total(o) in data; }
    }
  }

  lemma NextTotals(w: World, e: Event)
    requires TotalsStored(w.data)
    ensures TotalsStored(Next(w, e).data)
  {
    if !e.Start? && w.executor.Some? {
      match e
      case Call(op, generated, fault, _) => OperateTotals(w.data, w.executor.value, op, generated, fault);
      case TimeCall(now, baseFault, fault, _) =>
        BaseExtends(w.data, now, baseFault);
        var b := Base(w.data, now, baseFault);
        assert forall o :: Total(o) in b.data <==> Total(o) in w.data;
        if b.base.Some? {
          OperateTotals(b.data, w.executor.value, Time,
                        Instant(b.base.value + (CountOf(w.executor.value, Time) + 1) * SECOND), fault);
        }
    }
  }

  /** Over any history a total count is the number of a stored sequence, so it never runs ahead. */
  lemma {:induction false} TotalsNeverAhead(events: seq<Event>)
    ensures TotalsStored(After(events).data)
  {
    if events != [] {
      var n := |events| - 1;
      TotalsNeverAhead(events[..n]);
      NextTotals(After(events[..n]), events[n]);
    }
  }

  /** A call that stores a new result without failure leaves a total at least its sequence, and changes
      the total only to its sequence. */
  lemma TotalKeepsUp(data: Data, counters: Counters, op: Operation, generated: Value)
    requires Stored(op, CountOf(counters, op) + 1) !in data
    ensures var was, now, n := TotalOf(data, op), TotalOf(Operate(data, counters, op, generated, NoFault).data, op),
                               CountOf(counters, op) + 1;
            now >= n && now >= was && (now == n || now == was)
  {
  }

  // -- stored sequences form a prefix -------------------------------------

  ghost predicate PrefixStored(data: Data) {
    && (forall op :: Stored(op, 0) !in data)
    && (forall op, n: nat, m: nat | Stored(op, n) in data && 1 <= m <= n :: Stored(op, m) in data)
  }

  /** An executor has passed only stored sequences. */
  ghost predicate CountersStored(data: Data, counters: Counters) {
    forall op :: CountOf(counters, op) > 0 ==> Stored(op, CountOf(counters, op)) in data
  }

  /** The call's result is stored when it ends, whether or not it is returned. */
  predicate Secured(data: Data, counters: Counters, op: Operation, fault: Fault) {
    Stored(op, CountOf(counters, op) + 1) in data || (fault != GetFails && fault != SetLost)
  }

  predicate BaseFails(data: Data, fault: BaseFault) {
    fault == BaseGetFails || (BaseTime !in data && fault != BaseOk)
  }

  /** The executor is not used again after a call that failed before its result was stored. */
  predicate Careful(w: World, e: Event) {
    e.Start? || w.executor.None? || !e.goesOn ||
    if e.Call? then Secured(w.data, w.executor.value, e.op, e.fault)
    else BaseFails(w.data, e.baseFault) || Secured(w.data, w.executor.value, Time, e.fault)
  }

  predicate CarefulRun(events: seq<Event>) {
    forall k | 0 <= k < |events| :: Careful(After(events[..k]), events[k])
  }

  lemma OperatePrefix(data: Data, counters: Counters, op: Operation, generated: Value, fault: Fault)
    requires PrefixStored(data) && CountersStored(data, counters)
    ensures var r := Operate(data, counters, op, generated, fault);
            && PrefixStored(r.data)
            && (CountersStored(r.data, r.counters) <==> Secured(data, counters, op, fault))
            && (r.value.Some? ==> Secured(data, counters, op, fault))
  {
    var r := Operate(data, counters, op, generated, fault);
    if Secured(data, counters, op, fault) {
      forall o ensures CountOf(r.counters, o) > 0 ==> Stored(o, CountOf(r.counters, o)) in r.data {
        if o != op { assert CountOf(r.counters, o) == CountOf(counters, o); }
      }
    } else {
      assert CountOf(r.counters, op) > 0 && Stored(op, CountOf(r.counters, op)) !in r.data;
    }
  }

  lemma BasePrefix(data: Data, counters: Counters, now: int, fault: BaseFault)
    requires PrefixStored(data) && CountersStored(data, counters)
    ensures var b := Base(data, now, fault);
            PrefixStored(b.data) && CountersStored(b.data, counters) && (b.base.None? <==> BaseFails(data, fault))
  {
    BaseExtends(data, now, fault);
  }

  ghost predicate PrefixInv(w: World) {
    PrefixStored(w.data) && (w.executor.Some? ==> CountersStored(w.data, w.executor.value))
  }

  lemma CallPrefix(w: World, e: Event)
    requires PrefixInv(w) && e.Call? && Careful(w, e)
    ensures PrefixInv(Next(w, e))
  {
    if w.executor.Some? { OperatePrefix(w.data, w.executor.value, e.op, e.generated, e.fault); }
  }

  lemma AdvancePrefix(data: Data, counters: Counters, now: int, baseFault: BaseFault, fault: Fault)
    requires PrefixStored(data) && CountersStored(data, counters)
    ensures var r := Advance(data, counters, now, baseFault, fault);
            var safe := BaseFails(data, baseFault) || Secured(data, counters, Time, fault);
            && PrefixStored(r.data)
            && (CountersStored(r.data, r.counters) <==> safe)
            && (r.value.Some? ==> safe)
  {
    BaseExtends(data, now, baseFault);
    BasePrefix(data, counters, now, baseFault);
    var b := Base(data, now, baseFault);
    if b.base.Some? {
      var t := Instant(b.base.value + (CountOf(counters, Time) + 1) * SECOND);
      OperatePrefix(b.data, counters, Time, t, fault);
      SecuredSame(data, b.data, counters, fault);
    }
  }

  lemma SecuredSame(data: Data, more: Data, counters: Counters, fault: Fault)
    requires Extends(data, more) && forall k | k in more && k !in data :: k == BaseTime
    ensures Secured(data, counters, Time, fault) <==> Secured(more, counters, Time, fault)
  {
  }

  lemma TimeCallPrefix(w: World, e: Event)
    requires PrefixInv(w) && e.TimeCall? && Careful(w, e)
    ensures PrefixInv(Next(w, e))
  {
    if w.executor.Some? { AdvancePrefix(w.data, w.executor.value, e.now, e.baseFault, e.fault); }
  }

  /** Over any run whose executors stop, or go on only after failures that left the result stored, the
      stored sequences of every operation form a prefix 1..k. */
  lemma {:induction false} PrefixKept(events: seq<Event>)
    requires CarefulRun(events)
    ensures PrefixInv(After(events))
  {
    if events != [] {
      var n := |events| - 1;
      assert forall k | 0 <= k < n :: events[..n][..k] == events[..k];
      PrefixKept(events[..n]);
      match events[n]
      case Start =>
      case Call(_, _, _, _) => CallPrefix(After(events[..n]), events[n]);
      case TimeCall(_, _, _, _) => TimeCallPrefix(After(events[..n]), events[n]);
    }
  }

  /** Making the same call once more, without failure. */
  predicate Again(e: Event, again: Event) {
    match e
    case Start => false
    case Call(op, _, _, _) => again.Call? && again.op == op && again.fault == NoFault
    case TimeCall(_, _, _, _) => again.TimeCall? && again.baseFault == BaseOk && again.fault == NoFault
  }

  /** A call without failure stores the next sequence. */
  lemma NextIsStored(w: World, e: Event, again: Event)
    requires w.executor.Some? && Again(e, again)
    ensures var op := if e.Call? then e.op else Time;
            var n := CountOf(w.executor.value, op);
            && Stored(op, n + 1) in Next(w, again).data
            && forall m: nat | m <= n && Stored(op, m) in Next(w, again).data :: Stored(op, m) in w.data
  {
    if e.Call? {
      OperateExtends(w.data, w.executor.value, e.op, again.generated, NoFault);
    } else {
      BaseExtends(w.data, again.now, BaseOk);
      var b := Base(w.data, again.now, BaseOk);
      OperateExtends(b.data, w.executor.value, Time,
                     Instant(b.base.value + (CountOf(w.executor.value, Time) + 1) * SECOND), NoFault);
    }
  }

  /** Going on after a call leaves a gap in the stored sequences exactly when the call failed before its
      result was stored: a failed read of a sequence not stored yet, or a lost write. */
  lemma GoingOnIff(events: seq<Event>, e: Event, again: Event)
    requires CarefulRun(events) && After(events).executor.Some? && !e.Start? && e.goesOn && Again(e, again)
    ensures PrefixStored(Next(Next(After(events), e), again).data) <==> Careful(After(events), e)
  {
    PrefixKept(events);
    var w := After(events);
    var v := Next(w, e);
    NextIsStored(v, e, again);
    if e.Call? {
      OperatePrefix(w.data, w.executor.value, e.op, e.generated, e.fault);
      OperateExtends(w.data, w.executor.value, e.op, e.generated, e.fault);
      if Careful(w, e) { OperatePrefix(v.data, v.executor.value, again.op, again.generated, NoFault); }
    } else {
      AdvancePrefix(w.data, w.executor.value, e.now, e.baseFault, e.fault);
      if Careful(w, e) { AdvancePrefix(v.data, v.executor.value, again.now, BaseOk, NoFault); }
    }
  }

  lemma FromAppend(w: World, events: seq<Event>, e: Event)
    ensures From(w, events + [e]) == Next(From(w, events), e)
  {
    assert (events + [e])[..|events|] == events;
  }

  /** A run with a gap: an executor whose write is lost asks again. */
  lemma LostWriteLeavesGap(op: Operation, a: Value, b: Value)
    ensures var e, again := Call(op, a, SetLost, true), Call(op, b, NoFault, true);
            !PrefixStored(After([Start] + [e] + [again]).data)
  {
    var e, again := Call(op, a, SetLost, true), Call(op, b, NoFault, true);
    FromAppend(EMPTY, [], Start);
    assert [] + [Start] == [Start];
    FromAppend(EMPTY, [Start], e);
    FromAppend(EMPTY, [Start] + [e], again);
    GoingOnIff([Start], e, again);
  }

  // -- replaying a whole execution ----------------------------------------

  datatype Request = Ask(op: Operation, generated: Value) | AskTime(now: int)

  /** What an executor has done so far. */
  datatype Execution = Execution(data: Data, counters: Counters, values: seq<Value>)

  /** A fresh executor makes the requests, without failure. */
  function Execute(data: Data, requests: seq<Request>): Execution {
    if requests == [] then Execution(data, map[], [])
    else
      var n := |requests| - 1;
      Continue(Execute(data, requests[..n]), requests[n])
  }

  function Answer(x: Execution, request: Request): (r: Outcome)
    ensures r.value.Some?
  {
    match request
    case Ask(op, generated) => Operate(x.data, x.counters, op, generated, NoFault)
    case AskTime(now) => Advance(x.data, x.counters, now, BaseOk, NoFault)
  }

  function Continue(x: Execution, request: Request): Execution {
    var r := Answer(x, request);
    Execution(r.data, r.counters, x.values + [r.value.value])
  }

  /** The same operation is asked for, whatever the generator or the clock would give. */
  predicate SameRequest(a: Request, b: Request) {
    if a.Ask? then b.Ask? && a.op == b.op else b.AskTime?
  }

  ghost predicate SameRequests(a: seq<Request>, b: seq<Request>) {
    |a| == |b| && forall i | 0 <= i < |a| :: SameRequest(a[i], b[i])
  }

  lemma ContinueExtends(x: Execution, request: Request)
    ensures var y := Continue(x, request); var op := if request.Ask? then request.op else Time;
            && Extends(x.data, y.data)
            && y.counters == x.counters[op := CountOf(x.counters, op) + 1]
            && Stored(op, CountOf(x.counters, op) + 1) in y.data
            && y.data[Stored(op, CountOf(x.counters, op) + 1)] == y.values[|x.values|]
            && (request.AskTime? ==> BaseTime in y.data)
  {
    match request
    case Ask(op, generated) => OperateExtends(x.data, x.counters, op, generated, NoFault);
    case AskTime(now) =>
      AdvanceExtends(x.data, x.counters, now, BaseOk, NoFault);
      BaseExtends(x.data, now, BaseOk);
      var b := Base(x.data, now, BaseOk);
      var t := Instant(b.base.value + (CountOf(x.counters, Time) + 1) * SECOND);
      OperateExtends(b.data, x.counters, Time, t, NoFault);
  }

  /** On data that holds the result, and the base time for a time, a call only reads. */
  lemma ContinueReads(x: Execution, request: Request)
    requires var op := if request.Ask? then request.op else Time; Stored(op, CountOf(x.counters, op) + 1) in x.data
    requires request.AskTime? ==> BaseTime in x.data
    ensures var y := Continue(x, request); var op := if request.Ask? then request.op else Time;
            && y.data == x.data && y.counters == x.counters[op := CountOf(x.counters, op) + 1]
            && y.values == x.values + [x.data[Stored(op, CountOf(x.counters, op) + 1)]]
  {
  }

  lemma ReplayStep(x: Execution, y: Execution, a: Request, b: Request)
    requires SameRequest(a, b) && y.values == x.values && y.counters == x.counters
    requires Extends(Continue(x, a).data, y.data)
    ensures Continue(y, b).values == Continue(x, a).values
    ensures Continue(y, b).counters == Continue(x, a).counters
    ensures Continue(y, b).data == y.data
  {
    ContinueExtends(x, a);
    ContinueReads(y, b);
  }

  /** A fresh executor on data that extends what an earlier execution left, making the same calls, gets
      the same values whatever its generators and clock give, and writes nothing. */
  lemma {:induction false} ExecutionReplays(data: Data, first: seq<Request>, more: Data, second: seq<Request>)
    requires SameRequests(first, second) && Extends(Execute(data, first).data, more)
    ensures var x, y := Execute(data, first), Execute(more, second);
            y.values == x.values && y.counters == x.counters && y.data == more
    decreases |first|
  {
    if first != [] {
      var n := |first| - 1;
      var x, y := Execute(data, first[..n]), Execute(more, second[..n]);
      ContinueExtends(x, first[n]);
      ExtendsTransitive(x.data, Execute(data, first).data, more);
      ExecutionReplays(data, first[..n], more, second[..n]);
      ReplayStep(x, y, first[n], second[n]);
    }
  }

  /** So a later executor replays an execution whole, whatever other executors, failures and crashes
      came between. */
  lemma WholeReplay(data: Data, first: seq<Request>, between: seq<Event>, second: seq<Request>)
    requires SameRequests(first, second)
    ensures var left := World(Execute(data, first).data, None, []);
            Execute(From(left, between).data, second).values == Execute(data, first).values
  {
    var left := World(Execute(data, first).data, None, []);
    NeverOverwritten(left, between);
    ExecutionReplays(data, first, From(left, between).data, second);
  }
}
