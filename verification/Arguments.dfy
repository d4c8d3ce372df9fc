/**
 Splitting call parameters into per-key JSON texts, and rebuilding one JSON text
 from them. `limit` is the nesting the reader allows (127 open containers in
 serde_json); every statement holds for every limit.
 */
module Arguments {

  import opened Wrappers
  import opened SortedMaps
  import opened Json
  import opened JsonRoundTrip

  /** A `BTreeMap<String, String>`. */
  type SerializedArguments = seq<Pair<string>>

  const ARGS: string := "__args__"

  function Split(v: Json): SerializedArguments {
    if v.Object? then Texts(v.members) else [Pair(ARGS, Print(v))]
  }

  predicate OnlyArgs(args: SerializedArguments) { |args| == 1 && args[0].key == ARGS }

  /** The first `n` texts each read as one JSON value. */
  predicate ReadTo(args: SerializedArguments, limit: nat, n: nat)
    requires n <= |args|
  {
    forall i | 0 <= i < n :: Parse(args[i].value, limit).Some?
  }

  predicate AllRead(args: SerializedArguments, limit: nat) { ReadTo(args, limit, |args|) }

  function Rebuild(args: SerializedArguments, limit: nat): Result<string> {
    if OnlyArgs(args) then Ok(args[0].value)
    else if AllRead(args, limit) then Ok(['{'] + Join(args) + ['}'])
    else Err
  }

  /** `params_to_serialized_arguments`: inserts one text per member. */
  method ParamsToSerializedArguments(v: Json) returns (args: SerializedArguments)
    requires WellFormed(v)
    ensures args == Split(v) && Sorted(args)
  {
    args := [];
    if v.Object? {
      var texts := Texts(v.members);
      for i := 0 to |v.members|
        invariant args == texts[..i]
      {
        forall p | p in args ensures Less(p.key, v.members[i].key) {
          var j :| 0 <= j < i && p == texts[j];
          assert v.members[j].key == p.key;
        }
        InsertLast(args, v.members[i].key, Print(v.members[i].value));
        args := Insert(args, v.members[i].key, Print(v.members[i].value));
      }
    } else {
      args := Insert(args, ARGS, Print(v));
    }
  }

  lemma {:induction false} JoinAppend(args: SerializedArguments, a: Pair<string>)
    ensures Join(args + [a]) == Join(args) + (if args == [] then [] else [',']) + PrintMember(a.key, a.value)
  {
    if |args| == 1 {
      assert (args + [a])[1..] == [a];
    } else if |args| > 1 {
      assert (args + [a])[1..] == args[1..] + [a];
      JoinAppend(args[1..], a);
    }
  }

  /** What has been written before argument `i`. */
  function Buffer(args: SerializedArguments, i: nat): string
    requires i <= |args|
  {
    ['{'] + Join(args[..i])
  }

  lemma BufferStep(args: SerializedArguments, i: nat)
    requires i < |args|
    ensures i > 0 ==> Buffer(args, i + 1) == Buffer(args, i) + [','] + PrintMember(args[i].key, args[i].value)
    ensures i == 0 ==> Buffer(args, i + 1) == Buffer(args, i) + PrintMember(args[i].key, args[i].value)
  {
    assert args[..i + 1] == args[..i] + [args[i]];
    JoinAppend(args[..i], args[i]);
  }

  /** `serialized_args_to_json`: validates each value and appends it to a buffer. */
  method SerializedArgsToJson(args: SerializedArguments, limit: nat) returns (r: Result<string>)
    ensures r == Rebuild(args, limit)
  {
    if |args| == 1 && args[0].key == ARGS { return Ok(args[0].value); }
    var buf := ['{'];
    for i := 0 to |args|
      invariant buf == Buffer(args, i)
      invariant ReadTo(args, limit, i)
    {
      BufferStep(args, i);
      if i > 0 { buf := buf + [',']; }
      if Parse(args[i].value, limit).None? { return Err; }
      buf := buf + PrintMember(args[i].key, args[i].value);
    }
    assert args[..|args|] == args;
    r := Ok(buf + ['}']);
  }

  // -- rebuilding undoes splitting ----------------------------------------

  /** An object whose only key is the one reserved for other parameters. */
  predicate LooksLikeArgs(v: Json) { v.Object? && |v.members| == 1 && v.members[0].key == ARGS }

  lemma {:induction false} WithinDeeper(v: Json, depth: nat)
    requires Within(v, depth)
    ensures Within(v, depth + 1)
    decreases v
  {
    match v
    case Array(items) =>
      forall i | 0 <= i < |items| ensures Within(items[i], depth) { WithinDeeper(items[i], depth - 1); }
    case Object(members) =>
      forall i | 0 <= i < |members| ensures Within(members[i].value, depth) {
        WithinDeeper(members[i].value, depth - 1);
      }
    case _ =>
  }

  lemma ParseSound(text: string, depth: nat)
    requires Parse(text, depth).Some?
    ensures Sound(Parse(text, depth).value, depth)
  {
    ParseValueSound(text, depth);
  }

  lemma NotItsOwnMember(v: Json)
    requires v.Object? && |v.members| == 1
    ensures v.members[0].value != v
  {
    assert v.members[0].value < v;
  }

  lemma LooksLikeArgsIsLost(v: Json, limit: nat)
    requires WellFormed(v) && LooksLikeArgs(v)
    ensures Rebuild(Split(v), limit) == Ok(Print(v.members[0].value))
    ensures Parse(Print(v.members[0].value), limit) != Some(v)
  {
    var x := v.members[0].value;
    NotItsOwnMember(v);
    if Parse(Print(x), limit) == Some(v) {
      ParseSound(Print(x), limit);
      WithinDeeper(x, limit - 1);
      ParseUndoesPrint(x, limit);
    }
  }

  lemma ObjectRebuilds(v: Json, limit: nat)
    requires WellFormed(v) && Within(v, limit) && v.Object? && !LooksLikeArgs(v)
    ensures Rebuild(Split(v), limit) == Ok(Print(v))
  {
    forall i | 0 <= i < |v.members| ensures Parse(Print(v.members[i].value), limit).Some? {
      WithinDeeper(v.members[i].value, limit - 1);
      ParseUndoesPrint(v.members[i].value, limit);
    }
    PrintMembersJoins(v.members);
    assert !OnlyArgs(Split(v)) && AllRead(Split(v), limit);
  }

  /** The rebuilt text reads back as the value that was split exactly when the value is no deeper
      than the reader allows and is not an object whose only key is `__args__`. */
  lemma RebuildUndoesSplit(v: Json, limit: nat)
    requires WellFormed(v)
    ensures var r := Rebuild(Split(v), limit);
            (r.Ok? && Parse(r.value, limit) == Some(v)) <==> (Within(v, limit) && !LooksLikeArgs(v))
  {
    var r := Rebuild(Split(v), limit);
    if LooksLikeArgs(v) {
      LooksLikeArgsIsLost(v, limit);
    } else if Within(v, limit) {
      if v.Object? { ObjectRebuilds(v, limit); }
      ParseUndoesPrint(v, limit);
    } else if r.Ok? && Parse(r.value, limit) == Some(v) {
      ParseSound(r.value, limit);
    }
  }

  // -- no argument text can change the structure --------------------------

  function Values(args: SerializedArguments, limit: nat): seq<Pair<Json>>
    requires AllRead(args, limit)
  {
    seq(|args|, i requires 0 <= i < |args| => Pair(args[i].key, Parse(args[i].value, limit).value))
  }

  /** For arbitrary argument texts, not only split ones: an object is rebuilt exactly when every text
      reads as one JSON value on its own, and it then reads as the object with those values under those
      keys, or is too deep to read; no text adds, drops or shadows a key. */
  lemma NoStructuralInjection(args: SerializedArguments, limit: nat)
    requires Sorted(args) && !OnlyArgs(args)
    ensures Rebuild(args, limit).Ok? <==> AllRead(args, limit)
    ensures AllRead(args, limit) ==>
              var text := Rebuild(args, limit).value;
              && Parse(text, limit + 1) == Some(Object(Values(args, limit)))
              && (Parse(text, limit).Some? ==> Parse(text, limit) == Parse(text, limit + 1))
  {
    if AllRead(args, limit) {
      var text := Rebuild(args, limit).value;
      JoinedObjectReads(args, Values(args, limit), limit);
      if Parse(text, limit).Some? { ParseDeeper(text, limit); }
    }
  }
}
