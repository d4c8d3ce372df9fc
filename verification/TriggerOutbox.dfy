/**
 The trigger outbox: claims, run records and pending valid conditions; the
 one-lock claim batch, the ordered default sequence with its crash points, and
 why crashing and re-running converges. Identifiers are only compared for
 equality, so numbers stand for them.
 */
module TriggerOutbox {

  import opened Wrappers

  type ConditionId = nat
  type TriggerId = nat
  type ValidId = nat
  type TaskId = nat
  type InvocationId = nat
  type Arguments = nat

  datatype Logic = And | Or

  datatype ValidCondition = ValidCondition(id: ValidId, condition: ConditionId)

  datatype Trigger = Trigger(
    id: TriggerId,
    task: TaskId,
    conditions: seq<ConditionId>,
    logic: Logic,
    arguments: Option<Arguments>)

  /** `run_<trigger>_<sorted valid condition ids>`: a sorted list is a multiset. */
  datatype RunId = RunId(trigger: TriggerId, participants: multiset<ValidId>)

  datatype Record = Record(
    run: RunId,
    trigger: TriggerId,
    task: TaskId,
    logic: Logic,
    arguments: Option<Arguments>,
    participants: seq<ValidCondition>,
    claimedAt: int,
    executedAt: Option<int>,
    planned: Option<InvocationId>,
    triggered: Option<InvocationId>)
  {
    predicate IsPending() { planned.Some? && triggered.None? }
  }

  /** The part of the store the claim batch works on; claim times are left out. */
  datatype Outbox = Outbox(claims: set<RunId>, runs: map<RunId, Record>, valid: map<ValidId, ValidCondition>)

  /** Every stored record belongs to a claimed run. */
  ghost predicate RecordsClaimed(o: Outbox) {
    forall r | r in o.runs :: r in o.claims
  }

  function Runs(records: seq<Record>): set<RunId> {
    set k | 0 <= k < |records| :: records[k].run
  }

  // -- the claim batch ----------------------------------------------------

  function Claim(o: Outbox, run: RunId): Outbox {
    o.(claims := o.claims + {run})
  }

  function StoreIf(o: Outbox, record: Record, first: bool): Outbox {
    if first || record.run !in o.runs then o.(runs := o.runs[record.run := record]) else o
  }

  function ClaimOne(o: Outbox, record: Record): Outbox {
    StoreIf(Claim(o, record.run), record, record.run !in o.claims)
  }

  function ClaimAll(o: Outbox, records: seq<Record>): Outbox {
    if records == [] then o
    else ClaimOne(ClaimAll(o, records[..|records| - 1]), records[|records| - 1])
  }

  /** Which records of the batch make their claim. */
  function Firsts(o: Outbox, records: seq<Record>): seq<bool> {
    if records == [] then []
    else
      var before := records[..|records| - 1];
      Firsts(o, before) + [records[|records| - 1].run !in ClaimAll(o, before).claims]
  }

  function Clear(o: Outbox, consumed: seq<ValidId>): Outbox {
    o.(valid := map v | v in o.valid && v !in consumed :: o.valid[v])
  }

  function ClaimBatch(o: Outbox, records: seq<Record>, consumed: seq<ValidId>): Outbox {
    Clear(ClaimAll(o, records), consumed)
  }

  lemma TakeLast(o: Outbox, records: seq<Record>, k: nat)
    requires k < |records|
    ensures ClaimAll(o, records[..k + 1]) == ClaimOne(ClaimAll(o, records[..k]), records[k])
    ensures Firsts(o, records[..k + 1]) ==
            Firsts(o, records[..k]) + [records[k].run !in ClaimAll(o, records[..k]).claims]
  {
    assert records[..k + 1][..k] == records[..k];
  }

  lemma RunsPrefix(records: seq<Record>, k: nat)
    requires k < |records|
    ensures Runs(records[..k + 1]) == Runs(records[..k]) + {records[k].run}
  {
    forall r | r in Runs(records[..k + 1]) ensures r in Runs(records[..k]) + {records[k].run} {
      var m :| 0 <= m < k + 1 && records[..k + 1][m].run == r;
      if m < k { assert records[..k][m].run == r; }
    }
    forall r | r in Runs(records[..k]) ensures r in Runs(records[..k + 1]) {
      var m :| 0 <= m < k && records[..k][m].run == r;
      assert records[..k + 1][m].run == r;
    }
    assert records[..k + 1][k].run == records[k].run;
  }

  lemma {:induction false} FirstsLength(o: Outbox, records: seq<Record>)
    ensures |Firsts(o, records)| == |records|
  {
    if records != [] { FirstsLength(o, records[..|records| - 1]); }
  }

  lemma {:induction false} ClaimAllClaims(o: Outbox, records: seq<Record>, n: nat)
    requires n <= |records|
    ensures ClaimAll(o, records[..n]).claims == o.claims + Runs(records[..n])
  {
    if n > 0 {
      ClaimAllClaims(o, records, n - 1);
      TakeLast(o, records, n - 1);
      RunsPrefix(records, n - 1);
    }
  }

  lemma EarlierRun(records: seq<Record>, n: nat)
    requires n < |records|
    ensures records[n].run in Runs(records[..n]) <==> exists m | 0 <= m < n :: records[m].run == records[n].run
  {
    if m :| 0 <= m < n && records[m].run == records[n].run { assert records[..n][m].run == records[n].run; }
  }

  /** A record reports its claim exactly when the run was free before the batch and no earlier
      record of the batch has the same run id: one report per run. */
  lemma {:induction false} FirstsMeaning(o: Outbox, records: seq<Record>, k: nat)
    requires k < |records|
    ensures |Firsts(o, records)| == |records|
    ensures Firsts(o, records)[k] <==>
              records[k].run !in o.claims && forall m | 0 <= m < k :: records[m].run != records[k].run
  {
    var n := |records| - 1;
    FirstsLength(o, records);
    FirstsLength(o, records[..n]);
    if k < n {
      FirstsMeaning(o, records[..n], k);
      assert forall m | 0 <= m < k :: records[..n][m] == records[m];
      assert Firsts(o, records)[k] == Firsts(o, records[..n])[k];
    } else {
      ClaimAllClaims(o, records, n);
      EarlierRun(records, n);
    }
  }

  // -- crashes and re-runs ------------------------------------------------

  /** Where the ordered sequence can stop while it handles one record: after the claim
      (`trigger.claim.claimed`) or after the record (`trigger.claim.recorded`). */
  datatype CrashPoint = AfterClaim(index: nat) | AfterRecord(index: nat)

  function Crash(o: Outbox, records: seq<Record>, at: CrashPoint): Outbox
    requires at.index < |records|
  {
    match at
    case AfterClaim(k) => Claim(ClaimAll(o, records[..k]), records[k].run)
    case AfterRecord(k) => ClaimAll(o, records[..k + 1])
  }

  lemma FirstIndex(records: seq<Record>, r: RunId) returns (k: nat)
    requires r in Runs(records)
    ensures k < |records| && records[k].run == r && forall m | 0 <= m < k :: records[m].run != r
  {
    var j :| 0 <= j < |records| && records[j].run == r;
    k := 0;
    while records[k].run != r
      invariant k <= j && forall m | 0 <= m < k :: records[m].run != r
      decreases j - k
    {
      k := k + 1;
    }
  }

  // -- exactly when re-running converges ----------------------------------

  predicate IsFirst(records: seq<Record>, k: nat)
    requires k < |records|
  {
    forall m | 0 <= m < k :: records[m].run != records[k].run
  }

  /** The batch keeps the record of a run it does not name or that was claimed before. */
  ghost predicate Keeps(o: Outbox, records: seq<Record>, p: Outbox) {
    forall r | r in o.runs && (r !in Runs(records) || r in o.claims) :: r in p.runs && p.runs[r] == o.runs[r]
  }

  /** It stores its first record of a run that was free or had no record. */
  ghost predicate Stores(o: Outbox, records: seq<Record>, p: Outbox) {
    forall k | 0 <= k < |records| && IsFirst(records, k) && !(records[k].run in o.claims && records[k].run in o.runs) ::
      records[k].run in p.runs && p.runs[records[k].run] == records[k]
  }

  /** What a claim batch does from any store, claimed records or not. */
  lemma {:induction false} ClaimAllAnywhere(o: Outbox, records: seq<Record>)
    ensures var p := ClaimAll(o, records);
            && p.claims == o.claims + Runs(records) && p.valid == o.valid
            && p.runs.Keys == o.runs.Keys + Runs(records)
            && Keeps(o, records, p) && Stores(o, records, p)
  {
    if records != [] {
      var n := |records| - 1;
      ClaimAllAnywhere(o, records[..n]);
      RunsPrefix(records, n);
      assert records[..n + 1] == records;
      StoresNext(o, records, ClaimAll(o, records[..n]));
    }
  }

  lemma StoresNext(o: Outbox, records: seq<Record>, p: Outbox)
    requires records != []
    requires var before := records[..|records| - 1];
             p.claims == o.claims + Runs(before) && p.runs.Keys == o.runs.Keys + Runs(before) && Stores(o, before, p)
    ensures Stores(o, records, ClaimOne(p, records[|records| - 1]))
  {
    var n := |records| - 1;
    var q := ClaimOne(p, records[n]);
    forall k | 0 <= k < |records| && IsFirst(records, k) && !(records[k].run in o.claims && records[k].run in o.runs)
      ensures records[k].run in q.runs && q.runs[records[k].run] == records[k]
    {
      FirstInPrefix(records, n, k);
    }
  }

  lemma FirstInPrefix(records: seq<Record>, n: nat, k: nat)
    requires k <= n < |records| && IsFirst(records, k)
    ensures k < n ==> records[..n][k] == records[k] && IsFirst(records[..n], k) && records[k].run in Runs(records[..n])
    ensures records[k].run !in Runs(records[..k])
  {
    if k < n { assert records[..n][k] == records[k]; }
  }

  /** No run of the batch is free and yet has another record than the batch would store. */
  ghost predicate NoStrayRecord(o: Outbox, records: seq<Record>) {
    forall k | 0 <= k < |records| && IsFirst(records, k) && records[k].run !in o.claims && records[k].run in o.runs ::
      o.runs[records[k].run] == records[k]
  }

  ghost predicate Converges(o: Outbox, records: seq<Record>, consumed: seq<ValidId>) {
    forall at: CrashPoint | at.index < |records| ::
      ClaimBatch(Crash(o, records, at), records, consumed) == ClaimBatch(o, records, consumed)
  }

  /** A crash leaves each run of the batch untouched, claimed only, or as the whole batch would. */
  ghost predicate Halfway(o: Outbox, c: Outbox, records: seq<Record>, k: nat)
    requires k < |records|
  {
    var r := records[k].run;
    || ((r in c.claims <==> r in o.claims) && (r in c.runs <==> r in o.runs)
        && (r in c.runs ==> c.runs[r] == o.runs[r]))
    || (r in c.claims && (r in c.runs <==> r in o.runs) && (r in c.runs ==> c.runs[r] == o.runs[r]))
    || (r in c.claims && r in c.runs && r in ClaimAll(o, records).runs && c.runs[r] == ClaimAll(o, records).runs[r])
  }

  lemma PrefixHalfway(o: Outbox, records: seq<Record>, n: nat, k: nat)
    requires n <= |records| && k < |records| && IsFirst(records, k)
    ensures Halfway(o, ClaimAll(o, records[..n]), records, k)
    ensures k >= n ==> records[k].run !in Runs(records[..n])
  {
    ClaimAllAnywhere(o, records[..n]);
    ClaimAllAnywhere(o, records);
    if k < n {
      assert records[..n][k] == records[k] && IsFirst(records[..n], k);
    } else {
      assert records[k].run !in Runs(records[..n]);
    }
  }

  lemma CrashHalfway(o: Outbox, records: seq<Record>, at: CrashPoint, k: nat)
    requires at.index < |records| && k < |records| && IsFirst(records, k)
    ensures Halfway(o, Crash(o, records, at), records, k)
  {
    PrefixHalfway(o, records, at.index, k);
    PrefixHalfway(o, records, at.index + 1, k);
  }

  lemma RerunOf(o: Outbox, c: Outbox, records: seq<Record>, k: nat)
    requires k < |records| && IsFirst(records, k) && Halfway(o, c, records, k) && NoStrayRecord(o, records)
    ensures var r := records[k].run;
            && r in ClaimAll(c, records).runs && r in ClaimAll(o, records).runs
            && ClaimAll(c, records).runs[r] == ClaimAll(o, records).runs[r]
  {
    ClaimAllAnywhere(o, records);
    ClaimAllAnywhere(c, records);
    assert records[k].run in Runs(records);
  }

  lemma CrashOutside(o: Outbox, records: seq<Record>, at: CrashPoint)
    requires at.index < |records|
    ensures var c := Crash(o, records, at);
            && o.claims <= c.claims <= o.claims + Runs(records) && c.valid == o.valid
            && o.runs.Keys <= c.runs.Keys <= o.runs.Keys + Runs(records)
            && (forall r | r in o.runs && r !in Runs(records) :: c.runs[r] == o.runs[r])
  {
    var n := at.index;
    ClaimAllAnywhere(o, records[..n]);
    ClaimAllAnywhere(o, records[..n + 1]);
    assert Runs(records[..n]) <= Runs(records) && Runs(records[..n + 1]) <= Runs(records);
    assert records[n].run in Runs(records);
  }

  lemma RerunAt(o: Outbox, records: seq<Record>, at: CrashPoint, r: RunId)
    requires at.index < |records| && NoStrayRecord(o, records) && r in ClaimAll(o, records).runs
    ensures var again := ClaimAll(Crash(o, records, at), records);
            r in again.runs && again.runs[r] == ClaimAll(o, records).runs[r]
  {
    var c := Crash(o, records, at);
    if r in Runs(records) {
      var k := FirstIndex(records, r);
      CrashHalfway(o, records, at, k);
      RerunOf(o, c, records, k);
    } else {
      CrashOutside(o, records, at);
      ClaimAllAnywhere(o, records);
      ClaimAllAnywhere(c, records);
    }
  }

  lemma RerunClaims(o: Outbox, records: seq<Record>, at: CrashPoint)
    requires at.index < |records|
    ensures var full, again := ClaimAll(o, records), ClaimAll(Crash(o, records, at), records);
            again.claims == full.claims && again.valid == full.valid && again.runs.Keys == full.runs.Keys
  {
    CrashOutside(o, records, at);
    ClaimAllAnywhere(o, records);
    ClaimAllAnywhere(Crash(o, records, at), records);
  }

  lemma RerunConverges(o: Outbox, records: seq<Record>, at: CrashPoint)
    requires at.index < |records| && NoStrayRecord(o, records)
    ensures ClaimAll(Crash(o, records, at), records) == ClaimAll(o, records)
  {
    var full, again := ClaimAll(o, records), ClaimAll(Crash(o, records, at), records);
    RerunClaims(o, records, at);
    forall r | r in full.runs ensures r in again.runs && again.runs[r] == full.runs[r] {
      RerunAt(o, records, at, r);
    }
    assert again.runs == full.runs;
  }

  /** A stray record of a free run is overwritten by an undisturbed run and kept by a re-run that
      finds the claim taken. */
  lemma StrayRecordDiverges(o: Outbox, records: seq<Record>, k: nat)
    requires k < |records| && IsFirst(records, k) && records[k].run !in o.claims
    requires records[k].run in o.runs && o.runs[records[k].run] != records[k]
    ensures ClaimAll(Crash(o, records, AfterClaim(k)), records).runs != ClaimAll(o, records).runs
  {
    var c, r := Crash(o, records, AfterClaim(k)), records[k].run;
    FirstInPrefix(records, k, k);
    ClaimAllAnywhere(o, records[..k]);
    ClaimAllAnywhere(o, records);
    ClaimAllAnywhere(c, records);
    assert c.runs[r] == o.runs[r] && r in c.claims;
  }

  /** From an arbitrary store, re-running converges after every crash if and only if no free run of
      the batch already has a different record. */
  lemma ConvergesIff(o: Outbox, records: seq<Record>, consumed: seq<ValidId>)
    ensures Converges(o, records, consumed) <==> NoStrayRecord(o, records)
  {
    if NoStrayRecord(o, records) {
      forall at: CrashPoint | at.index < |records|
        ensures ClaimBatch(Crash(o, records, at), records, consumed) == ClaimBatch(o, records, consumed)
      {
        RerunConverges(o, records, at);
      }
    } else {
      var k :| 0 <= k < |records| && IsFirst(records, k) && records[k].run !in o.claims && records[k].run in o.runs
        && o.runs[records[k].run] != records[k];
      StrayRecordDiverges(o, records, k);
      var at := AfterClaim(k);
      assert at.index < |records|;
      assert ClaimBatch(Crash(o, records, at), records, consumed) != ClaimBatch(o, records, consumed);
    }
  }

  // -- from the stores a run can reach ------------------------------------

  /** What a crash leaves in place is what the whole batch would leave there. */
  lemma CrashKept(o: Outbox, records: seq<Record>, at: CrashPoint, r: RunId)
    requires RecordsClaimed(o) && at.index < |records| && r in Crash(o, records, at).runs
    ensures r in ClaimAll(o, records).runs && ClaimAll(o, records).runs[r] == Crash(o, records, at).runs[r]
    ensures r in Crash(o, records, at).claims
  {
    CrashOutside(o, records, at);
    ClaimAllAnywhere(o, records);
    if r in Runs(records) {
      var k := FirstIndex(records, r);
      CrashHalfway(o, records, at, k);
    }
  }

  /** Crashing anywhere and re-running the same batch gives the same claims, records and valid
      conditions as an undisturbed run, and overwrites no record already present. */
  lemma CrashConverges(o: Outbox, records: seq<Record>, consumed: seq<ValidId>, at: CrashPoint)
    requires RecordsClaimed(o) && at.index < |records|
    ensures ClaimBatch(Crash(o, records, at), records, consumed) == ClaimBatch(o, records, consumed)
    ensures RecordsClaimed(Crash(o, records, at))
    ensures forall r | r in Crash(o, records, at).runs ::
              && r in ClaimBatch(o, records, consumed).runs
              && ClaimBatch(o, records, consumed).runs[r] == Crash(o, records, at).runs[r]
  {
    RerunConverges(o, records, at);
    forall r | r in Crash(o, records, at).runs
      ensures r in ClaimAll(o, records).runs && ClaimAll(o, records).runs[r] == Crash(o, records, at).runs[r]
      ensures r in Crash(o, records, at).claims
    {
      CrashKept(o, records, at, r);
    }
  }

  function Crashes(o: Outbox, records: seq<Record>, at: seq<CrashPoint>): Outbox
    requires forall c | c in at :: c.index < |records|
  {
    if at == [] then o else Crash(Crashes(o, records, at[..|at| - 1]), records, at[|at| - 1])
  }

  /** The same for any number of crashed attempts in a row. */
  lemma {:induction false} ManyCrashesConverge(
    o: Outbox, records: seq<Record>, consumed: seq<ValidId>, at: seq<CrashPoint>)
    requires RecordsClaimed(o) && forall c | c in at :: c.index < |records|
    ensures RecordsClaimed(Crashes(o, records, at))
    ensures ClaimBatch(Crashes(o, records, at), records, consumed) == ClaimBatch(o, records, consumed)
  {
    if at != [] {
      ManyCrashesConverge(o, records, consumed, at[..|at| - 1]);
      CrashConverges(Crashes(o, records, at[..|at| - 1]), records, consumed, at[|at| - 1]);
    }
  }

  /** A reply lost after the clear is harmless too: running the whole batch again changes nothing,
      from any store. */
  lemma BatchIsIdempotent(o: Outbox, records: seq<Record>, consumed: seq<ValidId>)
    ensures var once := ClaimBatch(o, records, consumed);
            ClaimBatch(once, records, consumed) == once
  {
    var once := ClaimBatch(o, records, consumed);
    var twice := ClaimAll(once, records);
    ClaimAllAnywhere(o, records);
    ClaimAllAnywhere(once, records);
    assert twice.claims == once.claims && twice.runs.Keys == once.runs.Keys;
    assert forall r | r in once.runs :: twice.runs[r] == once.runs[r];
    assert twice.runs == once.runs;
  }
}
