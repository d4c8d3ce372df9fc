/**
 The client data store manager: size routing, content-hash reference keys and a
 least-recently-used cache over a backend that can fail.
 */
module ClientData {

  import opened Wrappers

  type Byte = x: nat | x < 256
  /** SHA-256 is left uninterpreted: any function from texts to bytes. */
  type Digest = string -> seq<Byte>

  /** `maxSize` zero means no maximum. */
  datatype Config = Config(disabled: bool, minSize: nat, maxSize: nat, cacheSize: nat)

  const REFERENCE_PREFIX: string := "__rustvello__cds__:"

  predicate IsReference(text: string) {
    |REFERENCE_PREFIX| <= |text| && text[..|REFERENCE_PREFIX|] == REFERENCE_PREFIX
  }

  // -- reference keys -----------------------------------------------------

  function Hex(hash: seq<Byte>): string {
    if hash == [] then [] else [HexDigit(hash[0] / 16), HexDigit(hash[0] % 16)] + Hex(hash[1..])
  }

  function ReferenceKey(digest: Digest, text: string): string { REFERENCE_PREFIX + Hex(digest(text)) }

  /** Each byte is two digits of `0123456789abcdef`, the high one first. */
  lemma {:induction false} HexMeaning(hash: seq<Byte>, i: nat)
    requires i < |hash|
    ensures |Hex(hash)| == 2 * |hash|
    ensures Hex(hash)[2 * i] == "0123456789abcdef"[hash[i] / 16]
    ensures Hex(hash)[2 * i + 1] == "0123456789abcdef"[hash[i] % 16]
  {
    HexDigitMeaning(hash[0] / 16);
    HexDigitMeaning(hash[0] % 16);
    if |hash| > 1 {
      if i > 0 { HexMeaning(hash[1..], i - 1); } else { HexMeaning(hash[1..], 0); }
    }
  }

  lemma HexDigitMeaning(d: nat)
    requires d < 16
    ensures HexDigit(d) == "0123456789abcdef"[d]
  {
  }

  lemma {:induction false} HexAppend(a: seq<Byte>, b: seq<Byte>)
    ensures Hex(a + b) == Hex(a) + Hex(b)
  {
    if a == [] {
      assert a + b == b;
    } else {
      assert (a + b)[1..] == a[1..] + b;
      HexAppend(a[1..], b);
    }
  }

  lemma {:induction false} HexInjective(a: seq<Byte>, b: seq<Byte>)
    requires Hex(a) == Hex(b)
    ensures a == b
  {
    if a != [] && b != [] {
      var x, y := Hex(a), Hex(b);
      assert x[0] == HexDigit(a[0] / 16) && x[1] == HexDigit(a[0] % 16) && x[2..] == Hex(a[1..]);
      assert y[0] == HexDigit(b[0] / 16) && y[1] == HexDigit(b[0] % 16) && y[2..] == Hex(b[1..]);
      HexInjective(a[1..], b[1..]);
      assert a == [a[0]] + a[1..] && b == [b[0]] + b[1..];
    }
  }

  /** A generated key is a reference, and two texts share one exactly when their digests agree. */
  lemma ReferenceKeyMeaning(digest: Digest, a: string, b: string)
    ensures IsReference(ReferenceKey(digest, a))
    ensures ReferenceKey(digest, a) == ReferenceKey(digest, b) <==> digest(a) == digest(b)
  {
    var x, y := ReferenceKey(digest, a), ReferenceKey(digest, b);
    var n := |REFERENCE_PREFIX|;
    assert x[..n] == REFERENCE_PREFIX;
    if x == y {
      assert x[n..] == Hex(digest(a)) && y[n..] == Hex(digest(b));
      HexInjective(digest(a), digest(b));
    }
  }

  // -- the cache ----------------------------------------------------------

  datatype Entry = Entry(key: string, value: string)

  /** Most recently used first. */
  type Cache = seq<Entry>

  function Keys(cache: Cache): seq<string> {
    if cache == [] then [] else [cache[0].key] + Keys(cache[1..])
  }

  function Find(cache: Cache, key: string): Option<string> {
    if cache == [] then None
    else if cache[0].key == key then Some(cache[0].value)
    else Find(cache[1..], key)
  }

  function Without(cache: Cache, key: string): Cache {
    if cache == [] then []
    else if cache[0].key == key then Without(cache[1..], key)
    else [cache[0]] + Without(cache[1..], key)
  }

  function Capacity(config: Config): nat { if config.cacheSize == 0 then 1 else config.cacheSize }

  function Put(cache: Cache, capacity: nat, key: string, value: string): Cache {
    var all := [Entry(key, value)] + Without(cache, key);
    if |all| <= capacity then all else all[..capacity]
  }

  // -- the manager's operations -------------------------------------------

  type Backend = map<string, string>

  /** A backend call can fail with its write lost or applied. */
  datatype Fault = NoFault | Lost | Applied

  datatype State = State(backend: Backend, cache: Cache)
  datatype Outcome = Outcome(state: State, result: Result<string>)

  function CharBytes(c: char): nat {
    var n := c as int;
    if n < 0x80 then 1 else if n < 0x800 then 2 else if n < 0x1_0000 then 3 else 4
  }

  /** The length of a text in bytes of UTF-8. */
  function ByteLength(text: string): nat {
    if text == [] then 0 else CharBytes(text[0]) + ByteLength(text[1..])
  }

  /** How many characters of the text are at `limit` or beyond. */
  function AtLeast(text: string, limit: int): nat {
    if text == [] then 0 else AtLeast(text[1..], limit) + if text[0] as int >= limit then 1 else 0
  }

  /** One byte each, and one more from U+0080, from U+0800 and from U+10000 on. */
  lemma {:induction false} ByteLengthMeaning(text: string)
    ensures ByteLength(text) == |text| + AtLeast(text, 0x80) + AtLeast(text, 0x800) + AtLeast(text, 0x1_0000)
  {
    if text != [] { ByteLengthMeaning(text[1..]); }
  }

  predicate Externalizes(config: Config, text: string) {
    && !config.disabled && !IsReference(text)
    && config.minSize <= ByteLength(text)
    && (config.maxSize > 0 ==> ByteLength(text) <= config.maxSize)
  }

  function StoreOutcome(config: Config, digest: Digest, s: State, text: string, fault: Fault): Outcome {
    if !Externalizes(config, text) then Outcome(s, Ok(text))
    else if fault == Lost then Outcome(s, Err)
    else
      var key := ReferenceKey(digest, text);
      var backend := s.backend[key := text];
      if fault == Applied then Outcome(State(backend, s.cache), Err)
      else Outcome(State(backend, Put(s.cache, Capacity(config), key, text)), Ok(key))
  }

  function ResolveOutcome(config: Config, s: State, data: string, fault: Fault): Outcome {
    if !IsReference(data) then Outcome(s, Ok(data))
    else
      var hit := Find(s.cache, data);
      if hit.Some? then Outcome(s.(cache := Put(s.cache, Capacity(config), data, hit.value)), Ok(hit.value))
      else if fault != NoFault || data !in s.backend then Outcome(s, Err)
      else Outcome(s.(cache := Put(s.cache, Capacity(config), data, s.backend[data])), Ok(s.backend[data]))
  }

  class ClientDataStoreManager {
    const config: Config
    const digest: Digest
    var backend: Backend
    var cache: Cache

    constructor (config: Config, digest: Digest)
      ensures this.config == config && this.digest == digest && backend == map[] && cache == []
    {
      this.config := config;
      this.digest := digest;
      backend := map[];
      cache := [];
    }

    method GenerateReferenceKey(text: string) returns (key: string)
      ensures key == ReferenceKey(digest, text)
    {
      var hash := digest(text);
      key := REFERENCE_PREFIX;
      for i := 0 to |hash|
        invariant key == REFERENCE_PREFIX + Hex(hash[..i])
      {
        HexAppend(hash[..i], [hash[i]]);
        assert hash[..i + 1] == hash[..i] + [hash[i]];
        key := key + [HexDigit(hash[i] / 16)] + [HexDigit(hash[i] % 16)];
      }
      assert hash[..|hash|] == hash;
    }

    method StoreIfLarge(text: string, fault: Fault) returns (r: Result<string>)
      modifies this
      ensures Outcome(State(backend, cache), r) ==
              StoreOutcome(config, digest, State(old(backend), old(cache)), text, fault)
    {
      if config.disabled { return Ok(text); }
      if IsReference(text) { return Ok(text); }
      var size := ByteLength(text);
      if size < config.minSize { return Ok(text); }
      if config.maxSize > 0 && size > config.maxSize { return Ok(text); }
      var key := GenerateReferenceKey(text);
      if fault == Lost { return Err; }
      backend := backend[key := text];
      if fault == Applied { return Err; }
      cache := Put(cache, Capacity(config), key, text);
      r := Ok(key);
    }

    method Resolve(data: string, fault: Fault) returns (r: Result<string>)
      modifies this`cache
      ensures Outcome(State(backend, cache), r) ==
              ResolveOutcome(config, State(old(backend), old(cache)), data, fault)
    {
      if !IsReference(data) { return Ok(data); }
      var hit := Find(cache, data);
      if hit.Some? {
        cache := Put(cache, Capacity(config), data, hit.value);
        return Ok(hit.value);
      }
      if fault != NoFault || data !in backend { return Err; }
      var value := backend[data];
      cache := Put(cache, Capacity(config), data, value);
      r := Ok(value);
    }

    method Store(key: string, value: string)
      modifies this`backend
      ensures backend == old(backend)[key := value]
    {
      backend := backend[key := value];
    }

    method Retrieve(key: string) returns (r: Result<string>)
      ensures r == if key in backend then Ok(backend[key]) else Err
    {
      r := if key in backend then Ok(backend[key]) else Err;
    }

    method Purge(fault: Fault)
      modifies this
      ensures cache == [] && backend == (if fault == Lost then old(backend) else map[])
    {
      cache := [];
      if fault != Lost { backend := map[]; }
    }
  }

  // -- histories ----------------------------------------------------------

  datatype Op =
    | StoreLarge(text: string, fault: Fault)
    | ResolveOp(text: string, fault: Fault)
    | StoreDirect(key: string, value: string)
    | PurgeAll(fault: Fault)

  function Next(config: Config, digest: Digest, s: State, op: Op): State {
    match op
    case StoreLarge(text, fault) => StoreOutcome(config, digest, s, text, fault).state
    case ResolveOp(text, fault) => ResolveOutcome(config, s, text, fault).state
    case StoreDirect(key, value) => s.(backend := s.backend[key := value])
    case PurgeAll(fault) => State(if fault == Lost then s.backend else map[], [])
  }

  function Run(config: Config, digest: Digest, s: State, ops: seq<Op>): State
    decreases |ops|
  {
    if ops == [] then s else Run(config, digest, Next(config, digest, s, ops[0]), ops[1..])
  }

  const EMPTY := State(map[], [])

  /** The backend alone: what a manager without a cache would leave. */
  function UncachedNext(config: Config, digest: Digest, backend: Backend, op: Op): Backend {
    match op
    case StoreLarge(text, fault) =>
      if Externalizes(config, text) && fault != Lost then backend[ReferenceKey(digest, text) := text] else backend
    case ResolveOp(_, _) => backend
    case StoreDirect(key, value) => backend[key := value]
    case PurgeAll(fault) => if fault == Lost then backend else map[]
  }

  function UncachedRun(config: Config, digest: Digest, backend: Backend, ops: seq<Op>): Backend
    decreases |ops|
  {
    if ops == [] then backend else UncachedRun(config, digest, UncachedNext(config, digest, backend, ops[0]), ops[1..])
  }

  function UncachedResolve(backend: Backend, data: string): Result<string> {
    if !IsReference(data) then Ok(data) else if data in backend then Ok(backend[data]) else Err
  }

  /** The texts of `texts` that share a digest are equal. */
  ghost predicate CollisionFree(digest: Digest, texts: set<string>) {
    forall a, b | a in texts && b in texts && digest(a) == digest(b) :: a == b
  }

  /** `op` offers only texts of `texts` for storing and writes under a reference key only what `writes`
      holds. */
  predicate Allowed(texts: set<string>, writes: set<Entry>, op: Op) {
    && (op.StoreLarge? ==> op.text in texts)
    && (op.StoreDirect? ==> !IsReference(op.key) || Entry(op.key, op.value) in writes)
  }

  predicate AllAllowed(texts: set<string>, writes: set<Entry>, ops: seq<Op>) {
    forall op | op in ops :: Allowed(texts, writes, op)
  }

  /** `op` offers only texts of `texts` and writes no reference key directly. */
  predicate Proper(texts: set<string>, op: Op) { Allowed(texts, {}, op) }

  predicate AllProper(texts: set<string>, ops: seq<Op>) { AllAllowed(texts, {}, ops) }

  /** `value` is externalized under the reference key `key`. */
  predicate StoredUnder(config: Config, digest: Digest, texts: set<string>, key: string, value: string) {
    value in texts && Externalizes(config, value) && ReferenceKey(digest, value) == key
  }

  /** Some allowed operation puts `value` under the reference key `key`. */
  predicate Gives(
    config: Config, digest: Digest, texts: set<string>, writes: set<Entry>, key: string, value: string)
  {
    StoredUnder(config, digest, texts, key, value) || (IsReference(key) && Entry(key, value) in writes)
  }

  /** No reference key is given two values. */
  ghost predicate OneValue(config: Config, digest: Digest, texts: set<string>, writes: set<Entry>) {
    forall k, v, w | Gives(config, digest, texts, writes, k, v) && Gives(config, digest, texts, writes, k, w) :: v == w
  }

  // -- cache lemmas -------------------------------------------------------

  predicate DistinctKeys(cache: Cache) {
    forall i, j | 0 <= i < j < |cache| :: cache[i].key != cache[j].key
  }

  predicate Agrees(cache: Cache, backend: Backend) {
    forall e | e in cache :: e.key in backend && backend[e.key] == e.value
  }

  lemma {:induction false} WithoutMeaning(cache: Cache, key: string)
    ensures forall e :: e in Without(cache, key) <==> e in cache && e.key != key
    ensures |Without(cache, key)| <= |cache|
  {
    if cache != [] {
      WithoutMeaning(cache[1..], key);
      assert cache == [cache[0]] + cache[1..];
    }
  }

  lemma {:induction false} WithoutDistinct(cache: Cache, key: string)
    requires DistinctKeys(cache)
    ensures DistinctKeys(Without(cache, key))
  {
    if cache != [] {
      WithoutDistinct(cache[1..], key);
      WithoutMeaning(cache[1..], key);
      var w := Without(cache[1..], key);
      forall j | 0 <= j < |w| ensures cache[0].key != w[j].key {
        assert w[j] in cache[1..];
      }
    }
  }

  lemma {:induction false} FindMeaning(cache: Cache, key: string)
    ensures Find(cache, key).Some? ==> Entry(key, Find(cache, key).value) in cache
    ensures Find(cache, key).None? ==> forall e | e in cache :: e.key != key
  {
    if cache != [] { FindMeaning(cache[1..], key); }
  }

  lemma PutMeaning(cache: Cache, capacity: nat, key: string, value: string)
    requires capacity > 0
    ensures var p := Put(cache, capacity, key, value);
            && |p| <= capacity
            && p[0] == Entry(key, value)
            && (forall e | e in p :: e == Entry(key, value) || (e in cache && e.key != key))
            && (DistinctKeys(cache) ==> DistinctKeys(p))
  {
    WithoutMeaning(cache, key);
    if DistinctKeys(cache) { WithoutDistinct(cache, key); }
    var w := Without(cache, key);
    forall j | 0 <= j < |w| ensures w[j].key != key { assert w[j] in w; }
  }

  /** Caching what the backend holds keeps the cache in agreement with it. */
  lemma PutAgrees(cache: Cache, capacity: nat, key: string, before: Backend, after: Backend)
    requires capacity > 0 && Agrees(cache, before) && key in after
    requires forall e | e in cache && e.key != key :: e.key in after && after[e.key] == before[e.key]
    ensures Agrees(Put(cache, capacity, key, after[key]), after)
  {
    PutMeaning(cache, capacity, key, after[key]);
  }

  // -- the invariant ------------------------------------------------------

  /** Every reference key of the backend holds a value an allowed operation gives it. */
  ghost predicate Addressed(
    config: Config, digest: Digest, texts: set<string>, writes: set<Entry>, backend: Backend)
  {
    forall k | k in backend && IsReference(k) :: Gives(config, digest, texts, writes, k, backend[k])
  }

  ghost predicate Inv(config: Config, digest: Digest, texts: set<string>, writes: set<Entry>, s: State) {
    && Addressed(config, digest, texts, writes, s.backend)
    && Agrees(s.cache, s.backend)
    && (forall e | e in s.cache :: IsReference(e.key))
    && DistinctKeys(s.cache)
    && |s.cache| <= Capacity(config)
  }

  /** Giving a key its value anew writes what was there already. */
  lemma SameValue(
    config: Config, digest: Digest, texts: set<string>, writes: set<Entry>, backend: Backend,
    key: string, value: string)
    requires OneValue(config, digest, texts, writes) && Addressed(config, digest, texts, writes, backend)
    requires Gives(config, digest, texts, writes, key, value)
    ensures IsReference(key) && (key in backend ==> backend[key] == value)
    ensures Addressed(config, digest, texts, writes, backend[key := value])
  {
    ReferenceKeyMeaning(digest, value, value);
  }

  lemma StoreLargeInv(
    config: Config, digest: Digest, texts: set<string>, writes: set<Entry>, s: State, text: string, fault: Fault)
    requires OneValue(config, digest, texts, writes) && Inv(config, digest, texts, writes, s) && text in texts
    ensures Inv(config, digest, texts, writes, StoreOutcome(config, digest, s, text, fault).state)
  {
    if Externalizes(config, text) && fault != Lost {
      var key := ReferenceKey(digest, text);
      var backend := s.backend[key := text];
      SameValue(config, digest, texts, writes, s.backend, key, text);
      PutMeaning(s.cache, Capacity(config), key, text);
      PutAgrees(s.cache, Capacity(config), key, s.backend, backend);
    }
  }

  lemma ResolveInv(
    config: Config, digest: Digest, texts: set<string>, writes: set<Entry>, s: State, data: string, fault: Fault)
    requires Inv(config, digest, texts, writes, s)
    ensures Inv(config, digest, texts, writes, ResolveOutcome(config, s, data, fault).state)
    ensures var r := ResolveOutcome(config, s, data, fault).result;
            if fault == NoFault then r == UncachedResolve(s.backend, data)
            else r.Ok? ==> r == UncachedResolve(s.backend, data)
  {
    FindMeaning(s.cache, data);
    if IsReference(data) && data in s.backend {
      PutMeaning(s.cache, Capacity(config), data, s.backend[data]);
      PutAgrees(s.cache, Capacity(config), data, s.backend, s.backend);
    }
  }

  lemma DirectInv(
    config: Config, digest: Digest, texts: set<string>, writes: set<Entry>, s: State, key: string, value: string)
    requires OneValue(config, digest, texts, writes) && Inv(config, digest, texts, writes, s)
    requires !IsReference(key) || Entry(key, value) in writes
    ensures Inv(config, digest, texts, writes, s.(backend := s.backend[key := value]))
  {
    if IsReference(key) { SameValue(config, digest, texts, writes, s.backend, key, value); }
  }

  lemma NextInv(config: Config, digest: Digest, texts: set<string>, writes: set<Entry>, s: State, op: Op)
    requires OneValue(config, digest, texts, writes) && Inv(config, digest, texts, writes, s)
    requires Allowed(texts, writes, op)
    ensures Inv(config, digest, texts, writes, Next(config, digest, s, op))
  {
    match op
    case StoreLarge(text, fault) => StoreLargeInv(config, digest, texts, writes, s, text, fault);
    case ResolveOp(text, fault) => ResolveInv(config, digest, texts, writes, s, text, fault);
    case StoreDirect(key, value) => DirectInv(config, digest, texts, writes, s, key, value);
    case PurgeAll(fault) =>
  }

  lemma {:induction false} RunInv(
    config: Config, digest: Digest, texts: set<string>, writes: set<Entry>, s: State, ops: seq<Op>)
    requires OneValue(config, digest, texts, writes) && Inv(config, digest, texts, writes, s)
    requires AllAllowed(texts, writes, ops)
    ensures Inv(config, digest, texts, writes, Run(config, digest, s, ops))
    decreases |ops|
  {
    if ops != [] {
      NextInv(config, digest, texts, writes, s, ops[0]);
      RunInv(config, digest, texts, writes, Next(config, digest, s, ops[0]), ops[1..]);
    }
  }

  /** The cache never changes what the backend holds. */
  lemma {:induction false} SameBackend(config: Config, digest: Digest, s: State, ops: seq<Op>)
    ensures Run(config, digest, s, ops).backend == UncachedRun(config, digest, s.backend, ops)
    decreases |ops|
  {
    if ops != [] {
      NextBackend(config, digest, s, ops[0]);
      SameBackend(config, digest, Next(config, digest, s, ops[0]), ops[1..]);
    }
  }

  lemma NextBackend(config: Config, digest: Digest, s: State, op: Op)
    ensures Next(config, digest, s, op).backend == UncachedNext(config, digest, s.backend, op)
  {
  }

  // -- exactly when the cache is transparent ------------------------------

  /** After `ops`, every `resolve` answers as a manager without a cache would. */
  ghost predicate Transparent(config: Config, digest: Digest, ops: seq<Op>) {
    forall data :: Honest(config, digest, ops, data)
  }

  predicate Honest(config: Config, digest: Digest, ops: seq<Op>, data: string) {
    ResolveOutcome(config, Run(config, digest, EMPTY, ops), data, NoFault).result ==
    UncachedResolve(UncachedRun(config, digest, map[], ops), data)
  }

  lemma InvIsTransparent(config: Config, digest: Digest, texts: set<string>, writes: set<Entry>, ops: seq<Op>)
    requires OneValue(config, digest, texts, writes) && AllAllowed(texts, writes, ops)
    ensures Transparent(config, digest, ops)
  {
    RunInv(config, digest, texts, writes, EMPTY, ops);
    SameBackend(config, digest, EMPTY, ops);
    forall data ensures Honest(config, digest, ops, data) {
      ResolveInv(config, digest, texts, writes, Run(config, digest, EMPTY, ops), data, NoFault);
    }
  }

  /** An operation that puts `value` under `key`; a text's write can be applied and reported failed. */
  function Give(config: Config, digest: Digest, texts: set<string>, key: string, value: string, fault: Fault): Op {
    if StoredUnder(config, digest, texts, key, value) then StoreLarge(value, fault) else StoreDirect(key, value)
  }

  lemma Given(
    config: Config, digest: Digest, texts: set<string>, writes: set<Entry>, s: State, key: string, value: string,
    fault: Fault)
    requires Gives(config, digest, texts, writes, key, value) && fault != Lost
    ensures var op := Give(config, digest, texts, key, value, fault); var t := Next(config, digest, s, op);
            && IsReference(key) && Allowed(texts, writes, op)
            && t.backend == s.backend[key := value]
            && (t.cache == s.cache || (fault == NoFault && t.cache == Put(s.cache, Capacity(config), key, value)))
  {
    ReferenceKeyMeaning(digest, value, value);
  }

  /** Resolving a key that the cache holds, or else the backend, puts it first in the cache. */
  lemma ResolvedFirst(config: Config, s: State, key: string, value: string)
    requires IsReference(key) && key in s.backend && s.backend[key] == value
    requires Find(s.cache, key) in {None, Some(value)}
    ensures var t := ResolveOutcome(config, s, key, NoFault).state;
            t.backend == s.backend && Find(t.cache, key) == Some(value)
  {
    PutMeaning(s.cache, Capacity(config), key, value);
  }

  lemma FindPut(cache: Cache, capacity: nat, key: string, value: string)
    requires capacity > 0
    ensures Find(Put(cache, capacity, key, value), key) == Some(value)
  {
    PutMeaning(cache, capacity, key, value);
  }

  /** One value, then a resolve, then another value. */
  function Clash(config: Config, digest: Digest, texts: set<string>, key: string, v: string, w: string): seq<Op> {
    [Give(config, digest, texts, key, v, NoFault), ResolveOp(key, NoFault),
     Give(config, digest, texts, key, w, Applied)]
  }

  lemma RunOfThree(config: Config, digest: Digest, s: State, a: Op, b: Op, c: Op)
    ensures Run(config, digest, s, [a, b, c]) ==
            Next(config, digest, Next(config, digest, Next(config, digest, s, a), b), c)
  {
    assert [a, b, c][1..] == [b, c] && [b, c][1..] == [c] && [c][1..] == [];
    assert Run(config, digest, Next(config, digest, s, a), [b, c]) ==
           Run(config, digest, Next(config, digest, Next(config, digest, s, a), b), [c]);
  }

  /** A key given two values lies: the cache answers with the first when the backend holds the second. */
  lemma ClashLies(
    config: Config, digest: Digest, texts: set<string>, writes: set<Entry>, key: string, v: string, w: string)
    requires Gives(config, digest, texts, writes, key, v) && Gives(config, digest, texts, writes, key, w) && v != w
    ensures var ops := Clash(config, digest, texts, key, v, w);
            && AllAllowed(texts, writes, ops)
            && ResolveOutcome(config, Run(config, digest, EMPTY, ops), key, NoFault).result == Ok(v)
            && UncachedResolve(UncachedRun(config, digest, map[], ops), key) == Ok(w)
  {
    var ops := Clash(config, digest, texts, key, v, w);
    Given(config, digest, texts, writes, EMPTY, key, v, NoFault);
    var one := Next(config, digest, EMPTY, ops[0]);
    FindPut([], Capacity(config), key, v);
    ResolvedFirst(config, one, key, v);
    var two := Next(config, digest, one, ops[1]);
    Given(config, digest, texts, writes, two, key, w, Applied);
    RunOfThree(config, digest, EMPTY, ops[0], ops[1], ops[2]);
    SameBackend(config, digest, EMPTY, ops);
  }

  /** Every history over the given texts and direct writes, with any resolves, purges and faults, is
      transparent if and only if no reference key is given two values. Colliding texts and direct writes
      under reference keys are the ways to give one two. */
  lemma TransparentIff(config: Config, digest: Digest, texts: set<string>, writes: set<Entry>)
    ensures (forall ops | AllAllowed(texts, writes, ops) :: Transparent(config, digest, ops)) <==>
              OneValue(config, digest, texts, writes)
  {
    if OneValue(config, digest, texts, writes) {
      forall ops | AllAllowed(texts, writes, ops) ensures Transparent(config, digest, ops) {
        InvIsTransparent(config, digest, texts, writes, ops);
      }
    } else {
      var k, v, w :| Gives(config, digest, texts, writes, k, v) && Gives(config, digest, texts, writes, k, w) && v != w;
      ClashLies(config, digest, texts, writes, k, v, w);
      var ops := Clash(config, digest, texts, k, v, w);
      assert !Honest(config, digest, ops, k);
      assert AllAllowed(texts, writes, ops) && !Transparent(config, digest, ops);
    }
  }

  // -- what it guarantees -------------------------------------------------

  lemma CollisionFreeIsOneValue(config: Config, digest: Digest, texts: set<string>)
    requires CollisionFree(digest, texts)
    ensures OneValue(config, digest, texts, {})
  {
    forall k, v, w | Gives(config, digest, texts, {}, k, v) && Gives(config, digest, texts, {}, k, w) ensures v == w {
      ReferenceKeyMeaning(digest, v, w);
    }
  }

  /** After any history without direct writes of reference keys the cache is within its capacity and
      agrees with the backend, the backend is the one a manager without a cache leaves, and `resolve`
      answers as that manager would. */
  lemma CacheIsTransparent(config: Config, digest: Digest, texts: set<string>, ops: seq<Op>, data: string)
    requires CollisionFree(digest, texts) && AllProper(texts, ops)
    ensures var s := Run(config, digest, EMPTY, ops);
            var uncached := UncachedRun(config, digest, map[], ops);
            && s.backend == uncached
            && |s.cache| <= (if config.cacheSize == 0 then 1 else config.cacheSize)
            && DistinctKeys(s.cache) && Agrees(s.cache, uncached)
            && ResolveOutcome(config, s, data, NoFault).result == UncachedResolve(uncached, data)
  {
    CollisionFreeIsOneValue(config, digest, texts);
    RunInv(config, digest, texts, {}, EMPTY, ops);
    SameBackend(config, digest, EMPTY, ops);
    ResolveInv(config, digest, texts, {}, Run(config, digest, EMPTY, ops), data, NoFault);
  }

  /** Among operations that write no reference key directly, adding this one write leaves every history
      transparent. */
  ghost predicate SafeWrite(config: Config, digest: Digest, texts: set<string>, key: string, value: string) {
    forall before, after | AllProper(texts, before) && AllProper(texts, after) ::
      Transparent(config, digest, before + [StoreDirect(key, value)] + after)
  }

  /** The write says nothing a text of that key would not say. */
  ghost predicate Redundant(config: Config, digest: Digest, texts: set<string>, key: string, value: string) {
    !IsReference(key) || forall t | StoredUnder(config, digest, texts, key, t) :: t == value
  }

  /** A run in which `resolve` lies after a direct write: the text was stored, the write replaced it. */
  lemma DirectWriteLies(config: Config, digest: Digest, texts: set<string>, key: string, value: string, text: string)
    requires StoredUnder(config, digest, texts, key, text) && text != value
    ensures var ops := [StoreLarge(text, NoFault)] + [StoreDirect(key, value)] + [];
            && ResolveOutcome(config, Run(config, digest, EMPTY, ops), key, NoFault).result == Ok(text)
            && UncachedResolve(UncachedRun(config, digest, map[], ops), key) == Ok(value)
  {
    var a, b := StoreLarge(text, NoFault), StoreDirect(key, value);
    var ops := [a] + [b] + [];
    assert ops == [a, b] && [a, b][1..] == [b] && [b][1..] == [];
    ReferenceKeyMeaning(digest, text, text);
    FindPut([], Capacity(config), key, text);
    var one := Next(config, digest, EMPTY, a);
    assert Run(config, digest, EMPTY, ops) == Run(config, digest, one, [b]);
    assert Run(config, digest, one, [b]) == Next(config, digest, one, b);
    SameBackend(config, digest, EMPTY, ops);
  }

  /** A direct write keeps every such history transparent if and only if its key is no reference or no
      text offered for storing has that key and another value. */
  lemma DirectWriteIsSafeIff(config: Config, digest: Digest, texts: set<string>, key: string, value: string)
    requires CollisionFree(digest, texts)
    ensures SafeWrite(config, digest, texts, key, value) <==> Redundant(config, digest, texts, key, value)
  {
    if Redundant(config, digest, texts, key, value) {
      var writes := {Entry(key, value)};
      RedundantIsOneValue(config, digest, texts, key, value);
      forall before, after | AllProper(texts, before) && AllProper(texts, after)
        ensures Transparent(config, digest, before + [StoreDirect(key, value)] + after)
      {
        InvIsTransparent(config, digest, texts, writes, before + [StoreDirect(key, value)] + after);
      }
    } else {
      var t :| StoredUnder(config, digest, texts, key, t) && t != value;
      DirectWriteLies(config, digest, texts, key, value, t);
      var before, after := [StoreLarge(t, NoFault)], [];
      assert AllProper(texts, before) && AllProper(texts, after);
      assert !Honest(config, digest, before + [StoreDirect(key, value)] + after, key);
    }
  }

  lemma RedundantIsOneValue(config: Config, digest: Digest, texts: set<string>, key: string, value: string)
    requires CollisionFree(digest, texts) && Redundant(config, digest, texts, key, value)
    ensures OneValue(config, digest, texts, {Entry(key, value)})
  {
    var writes := {Entry(key, value)};
    forall k, v, w | Gives(config, digest, texts, writes, k, v) && Gives(config, digest, texts, writes, k, w)
      ensures v == w
    {
      ReferenceKeyMeaning(digest, v, w);
    }
  }

  /** A text stays inline exactly when the store is disabled, it is a reference already, or its size
      is outside the bounds; otherwise a reference is returned in its place. */
  lemma InlineExactlyWhen(config: Config, digest: Digest, s: State, text: string)
    ensures var r := StoreOutcome(config, digest, s, text, NoFault);
            && r.result.Ok?
            && (r.result.value == text <==>
                  || config.disabled || IsReference(text) || ByteLength(text) < config.minSize
                  || (config.maxSize > 0 && ByteLength(text) > config.maxSize))
            && (r.result.value != text ==> IsReference(r.result.value))
            && (r.result.value == text ==> r.state == s)
  {
    ReferenceKeyMeaning(digest, text, text);
  }

  /** Without purges a stored text stays under its key. */
  lemma {:induction false} StaysStored(
    config: Config, digest: Digest, texts: set<string>, s: State, ops: seq<Op>, text: string)
    requires OneValue(config, digest, texts, {}) && Inv(config, digest, texts, {}, s)
    requires AllProper(texts, ops) && forall op | op in ops :: !op.PurgeAll?
    requires var key := ReferenceKey(digest, text);
             StoredUnder(config, digest, texts, key, text) && key in s.backend && s.backend[key] == text
    ensures var key := ReferenceKey(digest, text); var b := Run(config, digest, s, ops).backend;
            key in b && b[key] == text
    decreases |ops|
  {
    if ops != [] {
      var t := Next(config, digest, s, ops[0]);
      NextInv(config, digest, texts, {}, s, ops[0]);
      SameValue(config, digest, texts, {}, t.backend, ReferenceKey(digest, text), text);
      StaysStored(config, digest, texts, t, ops[1..], text);
    }
  }

  /** Round trip: whatever happened before, and whatever but a purge happens after, resolving what
      `store_if_large` returned for a text that is not itself a reference gives the text back, under
      every configuration. */
  lemma StoredTextResolves(
    config: Config, digest: Digest, texts: set<string>, before: seq<Op>, text: string, fault: Fault, after: seq<Op>)
    requires CollisionFree(digest, texts) && text in texts && !IsReference(text)
    requires AllProper(texts, before) && AllProper(texts, after) && forall op | op in after :: !op.PurgeAll?
    ensures var stored := StoreOutcome(config, digest, Run(config, digest, EMPTY, before), text, fault);
            stored.result.Ok? ==>
              var later := Run(config, digest, stored.state, after);
              ResolveOutcome(config, later, stored.result.value, NoFault).result == Ok(text)
  {
    CollisionFreeIsOneValue(config, digest, texts);
    var s := Run(config, digest, EMPTY, before);
    RunInv(config, digest, texts, {}, EMPTY, before);
    var stored := StoreOutcome(config, digest, s, text, fault);
    StoreLargeInv(config, digest, texts, {}, s, text, fault);
    if stored.result.Ok? && Externalizes(config, text) {
      StaysStored(config, digest, texts, stored.state, after, text);
      RunInv(config, digest, texts, {}, stored.state, after);
      ReferenceKeyMeaning(digest, text, text);
      ResolveInv(config, digest, texts, {}, Run(config, digest, stored.state, after), stored.result.value, NoFault);
    }
  }

  // -- least recently used ------------------------------------------------

  /** The keys used, most recent first, each once. */
  function Recent(uses: seq<string>): seq<string> {
    if uses == [] then []
    else [uses[|uses| - 1]] + Drop(Recent(uses[..|uses| - 1]), uses[|uses| - 1])
  }

  function Drop(keys: seq<string>, key: string): seq<string> {
    if keys == [] then []
    else if keys[0] == key then Drop(keys[1..], key)
    else [keys[0]] + Drop(keys[1..], key)
  }

  function Prefix(keys: seq<string>, n: nat): seq<string> {
    if |keys| <= n then keys else keys[..n]
  }

  predicate Distinct(keys: seq<string>) {
    forall i, j | 0 <= i < j < |keys| :: keys[i] != keys[j]
  }

  function Puts(capacity: nat, entries: seq<Entry>): Cache {
    if entries == [] then []
    else
      var last := entries[|entries| - 1];
      Put(Puts(capacity, entries[..|entries| - 1]), capacity, last.key, last.value)
  }

  lemma {:induction false} KeysOf(cache: Cache)
    ensures |Keys(cache)| == |cache| && forall i | 0 <= i < |cache| :: Keys(cache)[i] == cache[i].key
  {
    if cache != [] { KeysOf(cache[1..]); }
  }

  lemma {:induction false} KeysWithout(cache: Cache, key: string)
    ensures Keys(Without(cache, key)) == Drop(Keys(cache), key)
  {
    if cache != [] {
      KeysWithout(cache[1..], key);
      assert Keys(cache)[1..] == Keys(cache[1..]);
      if cache[0].key != key {
        var w := Without(cache, key);
        assert w[1..] == Without(cache[1..], key);
      }
    }
  }

  lemma {:induction false} DropAbsent(keys: seq<string>, key: string)
    requires key !in keys
    ensures Drop(keys, key) == keys
  {
    if keys != [] { DropAbsent(keys[1..], key); }
  }

  lemma {:induction false} DropMeaning(keys: seq<string>, key: string)
    ensures forall k :: k in Drop(keys, key) <==> k in keys && k != key
    ensures Distinct(keys) ==> Distinct(Drop(keys, key))
  {
    if keys != [] {
      var rest := Drop(keys[1..], key);
      DropMeaning(keys[1..], key);
      assert keys == [keys[0]] + keys[1..];
      if Distinct(keys) && keys[0] != key {
        forall j | 0 <= j < |rest| ensures rest[j] != keys[0] { assert rest[j] in rest; }
      }
    }
  }

  lemma {:induction false} RecentMeaning(uses: seq<string>)
    ensures Distinct(Recent(uses))
    ensures forall k :: k in Recent(uses) <==> k in uses
  {
    if uses != [] {
      var n := |uses| - 1;
      var older := Drop(Recent(uses[..n]), uses[n]);
      RecentMeaning(uses[..n]);
      DropMeaning(Recent(uses[..n]), uses[n]);
      forall j | 0 <= j < |older| ensures older[j] != uses[n] { assert older[j] in older; }
      assert uses == uses[..n] + [uses[n]];
    }
  }

  /** Evicting before or after dropping a key gives the same front. */
  lemma {:induction false} DropPrefix(keys: seq<string>, n: nat, key: string)
    requires Distinct(keys)
    ensures Prefix(Drop(Prefix(keys, n + 1), key), n) == Prefix(Drop(keys, key), n)
  {
    if |keys| > n + 1 {
      var rest := keys[1..];
      var front := Prefix(keys, n + 1);
      assert front[0] == keys[0] && front[1..] == Prefix(rest, n);
      if keys[0] == key {
        DropAbsent(rest, key);
        DropAbsent(Prefix(rest, n), key);
      } else if n > 0 {
        DropPrefix(rest, n - 1, key);
        var a, b := Drop(Prefix(rest, n), key), Drop(rest, key);
        assert Prefix([keys[0]] + a, n) == [keys[0]] + Prefix(a, n - 1);
        assert Prefix([keys[0]] + b, n) == [keys[0]] + Prefix(b, n - 1);
      }
    }
  }

  /** Using a key on the cached front gives the front of using it on everything. */
  lemma UseKeeps(keys: seq<string>, capacity: nat, key: string)
    requires Distinct(keys) && capacity > 0
    ensures [key] + Prefix(Drop(Prefix(keys, capacity), key), capacity - 1) ==
            Prefix([key] + Drop(keys, key), capacity)
  {
    DropPrefix(keys, capacity - 1, key);
    var dropped := Drop(keys, key);
    assert Prefix([key] + dropped, capacity) == [key] + Prefix(dropped, capacity - 1);
  }

  /** Eviction removes the least recently used key: after any sequence of puts (a cache hit puts the
      value it found) the cached keys are the `capacity` most recently used ones, in order. */
  lemma {:induction false} CacheHoldsMostRecent(capacity: nat, entries: seq<Entry>)
    requires capacity > 0
    ensures Keys(Puts(capacity, entries)) == Prefix(Recent(Keys(entries)), capacity)
  {
    KeysOf(entries);
    if entries != [] {
      var n := |entries| - 1;
      var earlier, last := entries[..n], entries[n];
      KeysOf(earlier);
      assert Keys(entries)[..n] == Keys(earlier);
      CacheHoldsMostRecent(capacity, earlier);
      RecentMeaning(Keys(earlier));
      PutKeys(Puts(capacity, earlier), capacity, last);
      UseKeeps(Recent(Keys(earlier)), capacity, last.key);
    }
  }

  /** The entry an operation uses, if any. */
  function Used(config: Config, digest: Digest, s: State, op: Op): seq<Entry> {
    match op
    case StoreLarge(text, fault) =>
      if Externalizes(config, text) && fault == NoFault then [Entry(ReferenceKey(digest, text), text)] else []
    case ResolveOp(text, fault) =>
      var r := ResolveOutcome(config, s, text, fault).result;
      if IsReference(text) && r.Ok? then [Entry(text, r.value)] else []
    case StoreDirect(_, _) => []
    case PurgeAll(_) => []
  }

  /** The entries used since the last purge, oldest first, after `uses`. */
  function Uses(config: Config, digest: Digest, s: State, ops: seq<Op>, uses: seq<Entry>): seq<Entry>
    decreases |ops|
  {
    if ops == [] then uses
    else
      var now := if ops[0].PurgeAll? then [] else uses + Used(config, digest, s, ops[0]);
      Uses(config, digest, Next(config, digest, s, ops[0]), ops[1..], now)
  }

  lemma PutsAppend(capacity: nat, uses: seq<Entry>, e: Entry)
    ensures Puts(capacity, uses + [e]) == Put(Puts(capacity, uses), capacity, e.key, e.value)
  {
    assert (uses + [e])[..|uses|] == uses;
  }

  /** The cache after an operation is the cache with its entry put, if it used one. */
  predicate PutsUsed(config: Config, before: Cache, used: seq<Entry>, after: Cache) {
    || (used == [] && after == before)
    || (|used| == 1 && after == Put(before, Capacity(config), used[0].key, used[0].value))
  }

  lemma StorePuts(config: Config, digest: Digest, s: State, op: Op)
    requires op.StoreLarge?
    ensures PutsUsed(config, s.cache, Used(config, digest, s, op), Next(config, digest, s, op).cache)
  {
  }

  lemma ResolvePuts(config: Config, digest: Digest, s: State, op: Op)
    requires op.ResolveOp?
    ensures PutsUsed(config, s.cache, Used(config, digest, s, op), Next(config, digest, s, op).cache)
  {
  }

  lemma NextPuts(config: Config, digest: Digest, s: State, op: Op, uses: seq<Entry>)
    requires s.cache == Puts(Capacity(config), uses) && !op.PurgeAll?
    ensures Next(config, digest, s, op).cache == Puts(Capacity(config), uses + Used(config, digest, s, op))
  {
    if op.StoreLarge? { StorePuts(config, digest, s, op); }
    if op.ResolveOp? { ResolvePuts(config, digest, s, op); }
    UsedPuts(config, uses, Used(config, digest, s, op), Next(config, digest, s, op).cache);
  }

  lemma UsedPuts(config: Config, uses: seq<Entry>, used: seq<Entry>, after: Cache)
    requires PutsUsed(config, Puts(Capacity(config), uses), used, after)
    ensures after == Puts(Capacity(config), uses + used)
  {
    if used == [] {
      assert uses + used == uses;
    } else {
      PutsAppend(Capacity(config), uses, used[0]);
      assert used == [used[0]];
    }
  }

  lemma {:induction false} RunPuts(config: Config, digest: Digest, s: State, ops: seq<Op>, uses: seq<Entry>)
    requires s.cache == Puts(Capacity(config), uses)
    ensures Run(config, digest, s, ops).cache == Puts(Capacity(config), Uses(config, digest, s, ops, uses))
    decreases |ops|
  {
    if ops != [] {
      if !ops[0].PurgeAll? { NextPuts(config, digest, s, ops[0], uses); }
      var now := if ops[0].PurgeAll? then [] else uses + Used(config, digest, s, ops[0]);
      RunPuts(config, digest, Next(config, digest, s, ops[0]), ops[1..], now);
    }
  }

  /** Over any history the cached keys are the most recently used ones since the last purge, as many
      as the capacity allows, in order of use. */
  lemma CacheIsLeastRecentlyUsed(config: Config, digest: Digest, ops: seq<Op>)
    ensures var uses := Uses(config, digest, EMPTY, ops, []);
            Keys(Run(config, digest, EMPTY, ops).cache) ==
            Prefix(Recent(Keys(uses)), if config.cacheSize == 0 then 1 else config.cacheSize)
  {
    RunPuts(config, digest, EMPTY, ops, []);
    CacheHoldsMostRecent(Capacity(config), Uses(config, digest, EMPTY, ops, []));
  }

  lemma PutKeys(cache: Cache, capacity: nat, e: Entry)
    requires capacity > 0
    ensures Keys(Put(cache, capacity, e.key, e.value)) == [e.key] + Prefix(Drop(Keys(cache), e.key), capacity - 1)
  {
    var w := Without(cache, e.key);
    KeysWithout(cache, e.key);
    KeysOf(w);
    KeysOf(Put(cache, capacity, e.key, e.value));
  }
}
