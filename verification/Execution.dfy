/**
 Durable execution identity: the attempt counter, the link to the preceding
 execution and the trace shared by all attempts, over any sequence of retries
 and recoveries of one invocation.
 */
module Execution {

  import opened Wrappers

  type U32 = x: nat | x < 0x1_0000_0000
  const MAX: U32 := 0xFFFF_FFFF

  /** A trace or span id that is not all zeros (section 3.2.2 of W3C Trace Context). */
  type Id = x: nat | 0 < x witness 1

  /** `Unreadable` stands for every text the propagator does not accept, all-zero ids included. */
  datatype TraceParent = Absent | Unreadable(token: nat) | Parent(trace: Id, span: Id, flags: nat)
  datatype TraceState = NoState | Entries(token: nat) | BadState(token: nat)

  datatype Carrier = Carrier(parent: TraceParent, state: TraceState)

  const EMPTY := Carrier(Absent, NoState)
  const SAMPLED: nat := 1

  predicate IsEmpty(c: Carrier) { c.parent.Absent? && c.state.NoState? }

  /** What the random generator would draw. */
  datatype Fresh = Fresh(trace: Id, span: Id)

  /** `allocate_execution_trace_context`: a new span in the parent's trace, or in a new sampled one. */
  function Allocate(c: Carrier, drawn: Fresh): Carrier {
    if c.parent.Parent? then
      Carrier(Parent(c.parent.trace, drawn.span, c.parent.flags), if c.state.Entries? then c.state else NoState)
    else Carrier(Parent(drawn.trace, drawn.span, SAMPLED), NoState)
  }

  datatype Identity = Identity(attempt: U32, context: Carrier, previous: Carrier)

  function NextIdentity(previous: Option<Identity>, retry: U32, incoming: Carrier, drawn: Fresh): Result<Identity> {
    if previous.None? then Ok(Identity(retry, Allocate(incoming, drawn), EMPTY))
    else if previous.value.attempt == MAX then Err
    else
      var last := previous.value;
      var next := last.attempt + 1;
      var parent := if IsEmpty(incoming) then last.context else incoming;
      Ok(Identity(if retry > next then retry else next, Allocate(parent, drawn), last.context))
  }

  /** The value under the identity key: none, an encoded identity, or a text that does not decode. */
  datatype Stored = Nothing | Encoded(identity: Identity) | Garbled

  datatype Fault = NoFault | GetFails | SetLost | SetApplied

  datatype Begin = Begin(retry: U32, incoming: Carrier, drawn: Fresh, fault: Fault)

  datatype Outcome = Outcome(stored: Stored, result: Result<Identity>)

  /** `begin_execution` on the stored value. */
  function BeginOutcome(stored: Stored, b: Begin): Outcome {
    if b.fault == GetFails || stored.Garbled? then Outcome(stored, Err)
    else
      var previous := if stored.Encoded? then Some(stored.identity) else None;
      var next := NextIdentity(previous, b.retry, b.incoming, b.drawn);
      if next.Err? || b.fault == SetLost then Outcome(stored, Err)
      else Outcome(Encoded(next.value), if b.fault == SetApplied then Err else next)
  }

  /** The backend's identity value of one invocation. */
  class IdentityStore {
    var stored: Stored

    constructor ()
      ensures stored == Nothing
    {
      stored := Nothing;
    }

    method BeginExecution(b: Begin) returns (r: Result<Identity>)
      modifies this
      ensures Outcome(stored, r) == BeginOutcome(old(stored), b)
    {
      if b.fault == GetFails { return Err; }
      var previous: Option<Identity> := None;
      match stored {
        case Garbled => return Err;
        case Encoded(identity) => previous := Some(identity);
        case Nothing =>
      }
      var next := NextIdentity(previous, b.retry, b.incoming, b.drawn);
      if next.Err? { return Err; }
      if b.fault == SetLost { return Err; }
      stored := Encoded(next.value);
      if b.fault == SetApplied { return Err; }
      r := next;
    }
  }

  // -- sequences of executions --------------------------------------------

  /** One identity that was persisted, with the call that persisted it. */
  datatype Link = Link(call: Begin, identity: Identity)

  datatype World = World(stored: Stored, chain: seq<Link>, returned: seq<Identity>)

  const START := World(Nothing, [], [])

  function Next(w: World, b: Begin): World {
    var o := BeginOutcome(w.stored, b);
    World(o.stored,
          if o.stored.Encoded? && o.stored != w.stored then w.chain + [Link(b, o.stored.identity)] else w.chain,
          if o.result.Ok? then w.returned + [o.result.value] else w.returned)
  }

  function After(calls: seq<Begin>): World {
    if calls == [] then START else Next(After(calls[..|calls| - 1]), calls[|calls| - 1])
  }

  /** Link `i` follows from the one before it. */
  predicate Follows(chain: seq<Link>, i: nat)
    requires i < |chain|
  {
    var call := chain[i].call;
    var previous := if i == 0 then None else Some(chain[i - 1].identity);
    NextIdentity(previous, call.retry, call.incoming, call.drawn) == Ok(chain[i].identity)
  }

  ghost predicate Linked(chain: seq<Link>) {
    forall i | 0 <= i < |chain| :: Follows(chain, i)
  }

  ghost predicate Last(w: World) {
    w.stored == if w.chain == [] then Nothing else Encoded(w.chain[|w.chain| - 1].identity)
  }

  /** A persisted identity differs from the one before it in its attempt. */
  lemma Advances(last: Identity, b: Begin)
    requires NextIdentity(Some(last), b.retry, b.incoming, b.drawn).Ok?
    ensures NextIdentity(Some(last), b.retry, b.incoming, b.drawn).value.attempt > last.attempt
  {
  }

  lemma LinkedAppend(chain: seq<Link>, link: Link)
    requires Linked(chain)
    requires NextIdentity(
               if chain == [] then None else Some(chain[|chain| - 1].identity),
               link.call.retry, link.call.incoming, link.call.drawn) == Ok(link.identity)
    ensures Linked(chain + [link])
  {
    var more := chain + [link];
    forall i | 0 <= i < |more| ensures Follows(more, i) {
      if i < |chain| {
        assert more[i] == chain[i] && (i > 0 ==> more[i - 1] == chain[i - 1]);
        assert Follows(chain, i);
      }
    }
  }

  lemma {:induction false} ChainInv(calls: seq<Begin>)
    ensures var w := After(calls); Linked(w.chain) && Last(w)
  {
    if calls != [] {
      var n := |calls| - 1;
      var w, b := After(calls[..n]), calls[n];
      ChainInv(calls[..n]);
      var o := BeginOutcome(w.stored, b);
      if o.stored != w.stored {
        LinkedAppend(w.chain, Link(b, o.stored.identity));
      }
    }
  }

  // -- what it guarantees -------------------------------------------------

  lemma {:induction false} AttemptsIncrease(chain: seq<Link>, i: nat, j: nat)
    requires Linked(chain) && i < j < |chain|
    ensures chain[i].identity.attempt < chain[j].identity.attempt
    decreases j
  {
    assert Follows(chain, j);
    Advances(chain[j - 1].identity, chain[j].call);
    if i < j - 1 { AttemptsIncrease(chain, i, j - 1); }
  }

  /** Over any sequence of retries, recoveries and backend failures, persisted attempts strictly
      increase, each is at least its retry count, and each identity links to the context of the one
      persisted before it, the first to none. */
  lemma IdentityChain(calls: seq<Begin>, i: nat, j: nat)
    requires i <= j < |After(calls).chain|
    ensures var chain := After(calls).chain;
            && (i < j ==> chain[i].identity.attempt < chain[j].identity.attempt)
            && chain[j].identity.attempt >= chain[j].call.retry
            && (j == 0 ==> chain[j].identity.attempt == chain[j].call.retry)
            && (j > 0 ==> chain[j].identity.attempt in {chain[j].call.retry, chain[j - 1].identity.attempt + 1})
            && chain[j].identity.previous == if j == 0 then EMPTY else chain[j - 1].identity.context
  {
    ChainInv(calls);
    var chain := After(calls).chain;
    if i < j { AttemptsIncrease(chain, i, j); }
    assert Follows(chain, j);
  }

  /** Exactly which attempt each execution is: the first takes its retry count, and every later one the
      larger of its retry count and one more than the attempt before. */
  lemma AttemptsExact(calls: seq<Begin>, j: nat)
    requires j < |After(calls).chain|
    ensures var chain := After(calls).chain;
            && (j == 0 ==> chain[0].identity.attempt == chain[0].call.retry)
            && (j > 0 && chain[j].call.retry <= chain[j - 1].identity.attempt + 1 ==>
                  chain[j].identity.attempt == chain[j - 1].identity.attempt + 1)
            && (j > 0 && chain[j].call.retry > chain[j - 1].identity.attempt + 1 ==>
                  chain[j].identity.attempt == chain[j].call.retry)
  {
    ChainInv(calls);
    assert Follows(After(calls).chain, j);
  }

  /** With no retry count ahead of the counter the attempts are consecutive. */
  lemma {:induction false} AttemptsConsecutive(calls: seq<Begin>, j: nat)
    requires j < |After(calls).chain|
    requires var chain := After(calls).chain;
             forall i | 1 <= i < |chain| :: chain[i].call.retry <= chain[i - 1].identity.attempt + 1
    ensures var chain := After(calls).chain; chain[j].identity.attempt == chain[0].call.retry + j
  {
    AttemptsExact(calls, j);
    if j > 0 { AttemptsConsecutive(calls, j - 1); }
  }

  ghost predicate InOrder(returned: seq<Identity>) {
    forall i, j | 0 <= i < j < |returned| :: returned[i].attempt < returned[j].attempt
  }

  ghost predicate NoneAhead(w: World) {
    forall r | r in w.returned :: w.stored.Encoded? && r.attempt <= w.stored.identity.attempt
  }

  /** The identities handed to callers strictly increase as well, with every one persisted first. */
  lemma {:induction false} ReturnedIncrease(calls: seq<Begin>)
    ensures var w := After(calls); InOrder(w.returned) && NoneAhead(w)
  {
    if calls != [] {
      var n := |calls| - 1;
      var w, b := After(calls[..n]), calls[n];
      ReturnedIncrease(calls[..n]);
      ReturnedStep(w, b);
    }
  }

  lemma ReturnedStep(w: World, b: Begin)
    requires InOrder(w.returned) && NoneAhead(w)
    ensures InOrder(Next(w, b).returned) && NoneAhead(Next(w, b))
  {
    var o := BeginOutcome(w.stored, b);
    if o.stored.Encoded? && w.stored.Encoded? && o.stored != w.stored {
      Advances(w.stored.identity, b);
    }
    if o.result.Ok? {
      forall r | r in w.returned ensures r.attempt < o.result.value.attempt {
        Advances(w.stored.identity, b);
      }
    }
  }

  /** The counter is exhausted exactly at the largest attempt; the call then fails and stores nothing,
      now and in every later call. */
  lemma {:induction false} ExhaustionIsFinal(w: World, calls: seq<Begin>)
    requires w.stored.Encoded? && w.stored.identity.attempt == MAX
    ensures From(w, calls) == w
    decreases |calls|
  {
    if calls != [] {
      assert Next(w, calls[0]) == w;
      ExhaustionIsFinal(w, calls[1..]);
    }
  }

  function From(w: World, calls: seq<Begin>): World
    decreases |calls|
  {
    if calls == [] then w else From(Next(w, calls[0]), calls[1..])
  }

  lemma FailsExactlyWhen(stored: Stored, b: Begin)
    ensures var o := BeginOutcome(stored, b);
            && (o.result.Err? <==>
                  b.fault != NoFault || stored.Garbled? || (stored.Encoded? && stored.identity.attempt == MAX))
            && (o.result.Err? && b.fault != SetApplied ==> o.stored == stored)
            && (o.result.Ok? ==> o.stored == Encoded(o.result.value))
  {
  }

  function Trace(identity: Identity): Option<Id> {
    if identity.context.parent.Parent? then Some(identity.context.parent.trace) else None
  }

  /** The call leaves trace `t` in place: it brings no context, brings that trace, or brings a context
      the propagator cannot read while the generator happens to draw that trace. */
  predicate KeepsTrace(t: Id, b: Begin) {
    match b.incoming.parent
    case Parent(trace, _, _) => trace == t
    case Unreadable(_) => b.drawn.trace == t
    case Absent => b.incoming.state == NoState || b.drawn.trace == t
  }

  lemma TraceStep(last: Identity, b: Begin)
    requires last.context.parent.Parent? && last.attempt < MAX
    ensures var next := NextIdentity(Some(last), b.retry, b.incoming, b.drawn).value;
            && Trace(next).Some?
            && (Trace(next) == Trace(last) <==> KeepsTrace(last.context.parent.trace, b))
  {
  }

  /** Every persisted context has a trace. */
  lemma {:induction false} ChainTraced(chain: seq<Link>, i: nat)
    requires Linked(chain) && i < |chain|
    ensures Trace(chain[i].identity).Some?
  {
    assert Follows(chain, i);
    if i > 0 { ChainTraced(chain, i - 1); }
  }

  ghost predicate SameTrace(chain: seq<Link>, n: nat)
    requires n <= |chain|
  {
    forall i | 0 <= i < n :: Trace(chain[i].identity) == Trace(chain[0].identity)
  }

  ghost predicate AllKeep(chain: seq<Link>, n: nat)
    requires n <= |chain|
  {
    forall i | 1 <= i < n :: Trace(chain[0].identity).Some? && KeepsTrace(Trace(chain[0].identity).value, chain[i].call)
  }

  lemma {:induction false} SameTraceUpTo(chain: seq<Link>, n: nat)
    requires Linked(chain) && 0 < n <= |chain|
    ensures SameTrace(chain, n) <==> AllKeep(chain, n)
    decreases n
  {
    ChainTraced(chain, 0);
    if n > 1 {
      SameTraceUpTo(chain, n - 1);
      ChainTraced(chain, n - 2);
      assert Follows(chain, n - 1);
      TraceStep(chain[n - 2].identity, chain[n - 1].call);
    }
  }

  /** All attempts share one trace if and only if every call after the first keeps the first one's. */
  lemma TraceIsConstantIff(calls: seq<Begin>)
    requires After(calls).chain != []
    ensures var chain := After(calls).chain; SameTrace(chain, |chain|) <==> AllKeep(chain, |chain|)
  {
    ChainInv(calls);
    SameTraceUpTo(After(calls).chain, |After(calls).chain|);
  }

  /** In particular when the incoming carrier is always empty, or always the same readable one. */
  lemma TraceIsConstant(calls: seq<Begin>, incoming: Carrier)
    requires IsEmpty(incoming) || incoming.parent.Parent?
    requires forall b | b in calls :: b.incoming == incoming
    ensures var chain := After(calls).chain;
            && SameTrace(chain, |chain|)
            && (incoming.parent.Parent? && chain != [] ==> Trace(chain[0].identity) == Some(incoming.parent.trace))
  {
    var chain := After(calls).chain;
    if chain != [] {
      ChainInv(calls);
      ChainCalls(calls);
      ChainTraced(chain, 0);
      assert Follows(chain, 0) && chain[0] in chain;
      TraceIsConstantIff(calls);
    }
  }

  /** Two contexts that differ in their span only. */
  predicate SameButSpan(a: Carrier, b: Carrier) {
    && a.parent.Parent? && b.parent.Parent?
    && a.parent.trace == b.parent.trace && a.parent.flags == b.parent.flags && a.state == b.state
  }

  /** With such carriers the sampling flags and the trace state stay constant too, each attempt has the
      span drawn for it, and a first attempt without a parent is sampled. */
  lemma {:induction false} ContextIsConstant(calls: seq<Begin>, incoming: Carrier, i: nat)
    requires IsEmpty(incoming) || incoming.parent.Parent?
    requires forall b | b in calls :: b.incoming == incoming
    requires i < |After(calls).chain|
    ensures var chain := After(calls).chain;
            && SameButSpan(chain[i].identity.context, chain[0].identity.context)
            && chain[i].identity.context.parent.span == chain[i].call.drawn.span
            && (incoming.parent.Absent? ==>
                  && chain[i].identity.context.parent.trace == chain[0].call.drawn.trace
                  && chain[i].identity.context.parent.flags == 1 && chain[i].identity.context.state == NoState)
            && (incoming.parent.Parent? ==>
                  && chain[i].identity.context.parent.trace == incoming.parent.trace
                  && chain[i].identity.context.parent.flags == incoming.parent.flags
                  && chain[i].identity.context.state == (if incoming.state.BadState? then NoState else incoming.state))
  {
    var chain := After(calls).chain;
    ChainInv(calls);
    ChainCalls(calls);
    assert chain[i] in chain && chain[0] in chain;
    assert Follows(chain, i) && Follows(chain, 0);
    if i > 0 { ContextIsConstant(calls, incoming, i - 1); }
  }

  lemma {:induction false} ChainCalls(calls: seq<Begin>)
    ensures forall l | l in After(calls).chain :: l.call in calls
  {
    if calls != [] {
      ChainCalls(calls[..|calls| - 1]);
      assert calls == calls[..|calls| - 1] + [calls[|calls| - 1]];
    }
  }
}
