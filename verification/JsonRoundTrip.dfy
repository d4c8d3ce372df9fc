/**
 Two facts about reading JSON: a text that reads as a value still does in front
 of a comma or a closing bracket, and what is printed reads back.
 */
module JsonRoundTrip {

  import opened Wrappers
  import opened SortedMaps
  import opened Json

  // -- reading is local ---------------------------------------------------

  predicate Closes(r: string) { r != [] && (r[0] == ',' || r[0] == ']' || r[0] == '}') }

  lemma {:induction false} SkipSpaceExtends(s: string, r: string)
    ensures SkipSpace(s) != [] ==> SkipSpace(s + r) == SkipSpace(s) + r
    ensures SkipSpace(s) == [] ==> SkipSpace(s + r) == SkipSpace(r)
  {
    if s == [] {
      assert s + r == r;
    } else if IsSpace(s[0]) {
      assert (s + r)[1..] == s[1..] + r;
      SkipSpaceExtends(s[1..], r);
    }
  }

  /** Where a character was seen it is still seen. */
  lemma SeesExtends(s: string, r: string)
    requires SkipSpace(s) != []
    ensures forall c :: Sees(s + r, c) <==> Sees(s, c)
    ensures SkipSpace(s + r) != [] && After(s + r) == After(s) + r
  {
    SkipSpaceExtends(s, r);
    assert (SkipSpace(s) + r)[1..] == SkipSpace(s)[1..] + r;
  }

  lemma HexQuadExtends(s: string, r: string)
    ensures HexQuad(s) >= 0 ==> HexQuad(s + r) == HexQuad(s)
  {
  }

  lemma ParseUnicodeExtends(s: string, r: string)
    requires ParseUnicode(s).Done?
    ensures ParseUnicode(s + r) == Done(ParseUnicode(s).value, ParseUnicode(s).rest + r)
  {
    HexQuadExtends(s, r);
    assert (s + r)[4..] == s[4..] + r;
    if |s| >= 6 {
      HexQuadExtends(s[6..], r);
      assert (s + r)[6..] == s[6..] + r;
      if |s| >= 10 { assert (s + r)[10..] == s[10..] + r; }
    }
  }

  lemma ParseEscapeExtends(s: string, r: string)
    requires ParseEscape(s).Done?
    ensures ParseEscape(s + r) == Done(ParseEscape(s).value, ParseEscape(s).rest + r)
  {
    assert (s + r)[1..] == s[1..] + r;
    if ParseUnicode(s[1..]).Done? { ParseUnicodeExtends(s[1..], r); }
  }

  lemma ParseCharExtends(s: string, r: string)
    requires ParseChar(s).Done?
    ensures ParseChar(s + r) == Done(ParseChar(s).value, ParseChar(s).rest + r)
  {
    assert (s + r)[1..] == s[1..] + r;
    if s[0] == '\\' { ParseEscapeExtends(s[1..], r); }
  }

  lemma {:induction false} ParseStringExtends(s: string, r: string)
    requires ParseString(s).Done?
    ensures ParseString(s + r) == Done(ParseString(s).value, ParseString(s).rest + r)
    decreases |s|
  {
    assert (s + r)[1..] == s[1..] + r;
    if s[0] != '\"' {
      ParseCharExtends(s, r);
      ParseStringExtends(ParseChar(s).rest, r);
    }
  }

  lemma {:induction false} NumberRunExtends(s: string, r: string)
    requires Closes(r)
    ensures NumberRun(s + r) == NumberRun(s)
  {
    if s == [] {
      assert s + r == r;
    } else {
      assert (s + r)[1..] == s[1..] + r;
      NumberRunExtends(s[1..], r);
    }
  }

  lemma ParseNumberExtends(s: string, r: string)
    requires ParseNumber(s).Done? && Closes(r)
    ensures ParseNumber(s + r) == Done(ParseNumber(s).value, ParseNumber(s).rest + r)
  {
    NumberRunExtends(s, r);
    var n := NumberRun(s);
    assert (s + r)[..n] == s[..n] && (s + r)[n..] == s[n..] + r;
  }

  lemma ParseWordExtends(s: string, word: string, v: Json, r: string)
    requires word != [] && ParseWord(s, word, v).Done?
    ensures ParseWord(s + r, word, v) == Done(v, ParseWord(s, word, v).rest + r)
  {
    var n := |word|;
    assert (s + r)[..n] == s[..n] && (s + r)[n..] == s[n..] + r;
  }

  lemma ParseScalarExtends(s: string, r: string)
    requires ParseScalar(s).Done? && Closes(r)
    ensures ParseScalar(s + r) == Done(ParseScalar(s).value, ParseScalar(s).rest + r)
  {
    assert (s + r)[0] == s[0];
    if s[0] == 'n' {
      ParseWordExtends(s, "null", Null, r);
    } else if s[0] == 't' {
      ParseWordExtends(s, "true", Bool(true), r);
    } else if s[0] == 'f' {
      ParseWordExtends(s, "false", Bool(false), r);
    } else if s[0] == '\"' {
      assert (s + r)[1..] == s[1..] + r;
      ParseStringExtends(s[1..], r);
    } else {
      ParseNumberExtends(s, r);
    }
  }

  lemma ParseKeyExtends(s: string, r: string)
    requires ParseKey(s).Done?
    ensures ParseKey(s + r) == Done(ParseKey(s).value, ParseKey(s).rest + r)
  {
    SeesExtends(s, r);
    var k := ParseString(After(s));
    ParseStringExtends(After(s), r);
    SeesExtends(k.rest, r);
  }

  lemma {:induction false} ParseValueExtends(s: string, depth: nat, r: string)
    requires ParseValue(s, depth).Done? && Closes(r)
    ensures ParseValue(s + r, depth) == Done(ParseValue(s, depth).value, ParseValue(s, depth).rest + r)
    decreases |s|, 1
  {
    SeesExtends(s, r);
    if Sees(s, '[') {
      ParseArrayExtends(After(s), depth - 1, r);
    } else if Sees(s, '{') {
      ParseObjectExtends(After(s), depth - 1, r);
    } else {
      SkipSpaceExtends(s, r);
      ParseScalarExtends(SkipSpace(s), r);
    }
  }

  lemma {:induction false} ParseArrayExtends(s: string, depth: nat, r: string)
    requires ParseArray(s, depth).Done? && Closes(r)
    ensures ParseArray(s + r, depth) == Done(ParseArray(s, depth).value, ParseArray(s, depth).rest + r)
    decreases |s|, 3
  {
    if SkipSpace(s) == [] { StartsSomething(s, depth); }
    SeesExtends(s, r);
    if !Sees(s, ']') { ParseItemsExtends(s, depth, r); }
  }

  lemma StartsSomething(s: string, depth: nat)
    requires SkipSpace(s) == []
    ensures ParseValue(s, depth).Fail?
  {
  }

  lemma {:induction false} ParseItemsExtends(s: string, depth: nat, r: string)
    requires ParseItems(s, depth).Done? && Closes(r)
    ensures ParseItems(s + r, depth) == Done(ParseItems(s, depth).value, ParseItems(s, depth).rest + r)
    decreases |s|, 2
  {
    var v := ParseValue(s, depth);
    ParseValueExtends(s, depth, r);
    SeesExtends(v.rest, r);
    if !Sees(v.rest, ']') { ParseItemsExtends(After(v.rest), depth, r); }
  }

  lemma {:induction false} ParseObjectExtends(s: string, depth: nat, r: string)
    requires ParseObject(s, depth).Done? && Closes(r)
    ensures ParseObject(s + r, depth) == Done(ParseObject(s, depth).value, ParseObject(s, depth).rest + r)
    decreases |s|, 3
  {
    SeesExtends(s, r);
    if !Sees(s, '}') { ParseMembersExtends(s, depth, [], r); }
  }

  lemma {:induction false} ParseMembersExtends(s: string, depth: nat, members: seq<Pair<Json>>, r: string)
    requires ParseMembers(s, depth, members).Done? && Closes(r)
    ensures var p := ParseMembers(s, depth, members);
            ParseMembers(s + r, depth, members) == Done(p.value, p.rest + r)
    decreases |s|, 2
  {
    var k := ParseKey(s);
    ParseKeyExtends(s, r);
    var v := ParseValue(k.rest, depth);
    ParseValueExtends(k.rest, depth, r);
    SeesExtends(v.rest, r);
    if !Sees(v.rest, '}') {
      ParseMembersExtends(After(v.rest), depth, Insert(members, k.value, v.value), r);
    }
  }

  /** A text that reads as `v` reads as `v` in front of what closes it. */
  lemma ReadsInContext(text: string, depth: nat, v: Json, r: string)
    requires Parse(text, depth) == Some(v) && Closes(r)
    ensures var p := ParseValue(text + r, depth);
            p.Done? && p.value == v && SkipSpace(p.rest) == r
  {
    ParseValueExtends(text, depth, r);
    SkipSpaceExtends(ParseValue(text, depth).rest, r);
  }

  // -- reading undoes printing --------------------------------------------

  /** A character that is not a space is seen where it stands. */
  lemma SeesHead(c: char, r: string)
    requires !IsSpace(c)
    ensures SkipSpace([c] + r) == [c] + r && Sees([c] + r, c) && After([c] + r) == r
    ensures forall d | d != c :: !Sees([c] + r, d)
  {
    assert ([c] + r)[1..] == r;
  }

  lemma ArrayOpens(t: string, depth: nat)
    requires ParseArray(t, depth).Done?
    ensures var r := ParseArray(t, depth); ParseValue(['['] + t, depth + 1) == Done(Array(r.value), r.rest)
  {
    SeesHead('[', t);
  }

  lemma ObjectOpens(t: string, depth: nat)
    requires ParseObject(t, depth).Done?
    ensures var r := ParseObject(t, depth); ParseValue(['{'] + t, depth + 1) == Done(Object(r.value), r.rest)
  {
    SeesHead('{', t);
  }

  lemma ItemsStep(s: string, depth: nat)
    requires ParseValue(s, depth).Done?
    ensures var v := ParseValue(s, depth);
            && (Sees(v.rest, ']') ==> ParseItems(s, depth) == Done([v.value], After(v.rest)))
            && (Sees(v.rest, ',') && ParseItems(After(v.rest), depth).Done? ==>
                  var more := ParseItems(After(v.rest), depth);
                  ParseItems(s, depth) == Done([v.value] + more.value, more.rest))
  {
  }

  lemma MembersStep(s: string, depth: nat, members: seq<Pair<Json>>)
    requires ParseKey(s).Done? && ParseValue(ParseKey(s).rest, depth).Done?
    ensures var k := ParseKey(s);
            var v := ParseValue(k.rest, depth);
            var more := Insert(members, k.value, v.value);
            && (Sees(v.rest, '}') ==> ParseMembers(s, depth, members) == Done(more, After(v.rest)))
            && (Sees(v.rest, ',') ==> ParseMembers(s, depth, members) == ParseMembers(After(v.rest), depth, more))
  {
  }

  lemma CharRoundTrip(c: char, r: string)
    ensures PrintChar(c) != [] && PrintChar(c)[0] != '\"'
    ensures ParseChar(PrintChar(c) + r) == Done(c, r)
  {
    var p := PrintChar(c);
    var s := p + r;
    if |p| == 1 {
      assert s[1..] == r;
    } else if |p| == 2 {
      assert s[1..][1..] == r;
    } else {
      var t := s[1..][1..];
      assert t[4..] == r;
      assert t[0] == '0' && t[1] == '0' && t[2] == HexDigit(c as int / 16) && t[3] == HexDigit(c as int % 16);
    }
  }

  lemma {:induction false} StringRoundTrip(text: string, r: string)
    ensures ParseString(PrintChars(text) + ['\"'] + r) == Done(text, r)
  {
    var s := PrintChars(text) + ['\"'] + r;
    if text == [] {
      assert s[0] == '\"' && s[1..] == r;
    } else {
      var tail := PrintChars(text[1..]) + ['\"'] + r;
      RegroupChars(PrintChar(text[0]), PrintChars(text[1..]), r);
      StringRoundTrip(text[1..], r);
      CharThen(text[0], tail);
      assert text == [text[0]] + text[1..];
    }
  }

  lemma RegroupChars(first: string, more: string, r: string)
    ensures first + more + ['\"'] + r == first + (more + ['\"'] + r)
  {
  }

  /** Reading one printed character and going on from there. */
  lemma CharThen(c: char, tail: string)
    requires ParseString(tail).Done?
    ensures ParseString(PrintChar(c) + tail) == Done([c] + ParseString(tail).value, ParseString(tail).rest)
  {
    CharRoundTrip(c, tail);
    assert (PrintChar(c) + tail)[0] == PrintChar(c)[0];
  }

  lemma {:induction false} WholeRun(token: string)
    requires NumberChars(token)
    ensures NumberRun(token) == |token|
  {
    if token != [] { WholeRun(token[1..]); }
  }

  lemma ScalarRoundTrip(v: Json, depth: nat)
    requires WellFormed(v) && !v.Array? && !v.Object?
    ensures Parse(Print(v), depth) == Some(v)
  {
    match v
    case Null =>
    case Bool(_) =>
    case Number(token) => NumberRoundTrip(token, depth);
    case String(text) => TextRoundTrip(text, depth);
  }

  lemma NumberRoundTrip(token: string, depth: nat)
    requires ValidNumber(token)
    ensures Parse(token, depth) == Some(Number(token))
  {
    WholeRun(token);
    assert token[..|token|] == token && token[|token|..] == [];
  }

  lemma TextRoundTrip(text: string, depth: nat)
    ensures Parse(PrintString(text), depth) == Some(String(text))
  {
    StringRoundTrip(text, []);
    var t := PrintChars(text) + ['\"'] + [];
    assert PrintString(text) == ['\"'] + t;
    SeesHead('\"', t);
  }

  ghost predicate ItemsRead(items: seq<Json>, depth: nat) {
    forall i | 0 <= i < |items| :: Parse(Print(items[i]), depth) == Some(items[i])
  }

  lemma {:induction false} ItemsRoundTrip(items: seq<Json>, depth: nat)
    requires items != [] && ItemsRead(items, depth)
    ensures ParseItems(PrintItems(items) + [']'], depth) == Done(items, [])
  {
    if |items| == 1 {
      ItemThen(items[0], depth, [']']);
      assert items == [items[0]];
    } else {
      ItemsRoundTrip(items[1..], depth);
      var tail := [','] + (PrintItems(items[1..]) + [']']);
      RegroupItems(Print(items[0]), PrintItems(items[1..]));
      ItemThen(items[0], depth, tail);
      assert items == [items[0]] + items[1..];
    }
  }

  lemma RegroupItems(first: string, more: string)
    ensures first + [','] + more + [']'] == first + ([','] + (more + [']']))
    ensures ([','] + (more + [']']))[1..] == more + [']']
  {
  }

  /** Reading one item and going on from what closes it. */
  lemma ItemThen(v: Json, depth: nat, tail: string)
    requires Parse(Print(v), depth) == Some(v) && Closes(tail)
    ensures var r := ParseItems(Print(v) + tail, depth);
            && (tail[0] == ']' ==> r == Done([v], tail[1..]))
            && (tail[0] == ',' && ParseItems(tail[1..], depth).Done? ==>
                  var more := ParseItems(tail[1..], depth); r == Done([v] + more.value, more.rest))
  {
    ReadsInContext(Print(v), depth, v, tail);
    ItemsStep(Print(v) + tail, depth);
  }

  /** Nothing printed can be taken for a closing bracket. */
  lemma PrintStarts(v: Json)
    requires WellFormed(v)
    ensures Print(v) != [] && Print(v)[0] != ']' && Print(v)[0] != '}' && !IsSpace(Print(v)[0])
  {
  }

  /** The members of an object whose values are given as texts. */
  function Join(args: seq<Pair<string>>): string {
    if args == [] then []
    else if |args| == 1 then PrintMember(args[0].key, args[0].value)
    else PrintMember(args[0].key, args[0].value) + [','] + Join(args[1..])
  }

  function Texts(members: seq<Pair<Json>>): seq<Pair<string>> {
    seq(|members|, i requires 0 <= i < |members| => Pair(members[i].key, Print(members[i].value)))
  }

  lemma {:induction false} PrintMembersJoins(members: seq<Pair<Json>>)
    ensures PrintMembers(members) == Join(Texts(members))
  {
    if |members| > 1 {
      PrintMembersJoins(members[1..]);
      assert Texts(members)[1..] == Texts(members[1..]);
    }
  }

  /** Each argument's text reads as the member's value, key by key. */
  ghost predicate ArgumentsRead(args: seq<Pair<string>>, members: seq<Pair<Json>>, depth: nat) {
    && |args| == |members|
    && forall i | 0 <= i < |args| ::
         args[i].key == members[i].key && Parse(args[i].value, depth) == Some(members[i].value)
  }

  lemma KeyRoundTrip(key: string, r: string)
    ensures ParseKey(PrintString(key) + [':'] + r) == Done(key, r)
  {
    var t := PrintChars(key) + ['\"'] + ([':'] + r);
    assert PrintString(key) + [':'] + r == ['\"'] + t;
    SeesHead('\"', t);
    StringRoundTrip(key, [':'] + r);
    SeesHead(':', r);
  }

  /** One member in front of what closes it. */
  lemma MemberReads(arg: Pair<string>, v: Json, depth: nat, tail: string)
    requires Parse(arg.value, depth) == Some(v) && Closes(tail)
    ensures var k := ParseKey(PrintMember(arg.key, arg.value) + tail);
            && k.Done? && k.value == arg.key
            && var p := ParseValue(k.rest, depth); p.Done? && p.value == v && SkipSpace(p.rest) == tail
  {
    KeyRoundTrip(arg.key, arg.value + tail);
    assert PrintMember(arg.key, arg.value) + tail == PrintString(arg.key) + [':'] + (arg.value + tail);
    ReadsInContext(arg.value, depth, v, tail);
  }

  /** Reading one member and going on from what closes it. */
  lemma MemberThen(arg: Pair<string>, v: Json, depth: nat, tail: string, before: seq<Pair<Json>>)
    requires Parse(arg.value, depth) == Some(v) && Closes(tail)
    ensures var r := ParseMembers(PrintMember(arg.key, arg.value) + tail, depth, before);
            && (tail[0] == '}' ==> r == Done(Insert(before, arg.key, v), tail[1..]))
            && (tail[0] == ',' ==> r == ParseMembers(tail[1..], depth, Insert(before, arg.key, v)))
  {
    MemberReads(arg, v, depth, tail);
    MembersStep(PrintMember(arg.key, arg.value) + tail, depth, before);
  }

  /** Joined members read as exactly those members, whatever their texts hold. */
  lemma {:induction false} JoinedMembersRead(
    args: seq<Pair<string>>, members: seq<Pair<Json>>, depth: nat, before: seq<Pair<Json>>)
    requires args != [] && ArgumentsRead(args, members, depth) && Sorted(before + members)
    ensures ParseMembers(Join(args) + ['}'], depth, before) == Done(before + members, [])
    decreases |args|
  {
    AppendSorted(before, members);
    if |args| == 1 {
      MemberThen(args[0], members[0].value, depth, ['}'], before);
      assert members == [members[0]];
    } else {
      assert ArgumentsRead(args[1..], members[1..], depth);
      assert before + [members[0]] + members[1..] == before + members;
      JoinedMembersRead(args[1..], members[1..], depth, before + [members[0]]);
      JoinedStep(args, members[0].value, depth, before);
    }
  }

  lemma JoinedStep(args: seq<Pair<string>>, v: Json, depth: nat, before: seq<Pair<Json>>)
    requires |args| > 1 && Parse(args[0].value, depth) == Some(v)
    ensures ParseMembers(Join(args) + ['}'], depth, before) ==
            ParseMembers(Join(args[1..]) + ['}'], depth, Insert(before, args[0].key, v))
  {
    var tail := [','] + (Join(args[1..]) + ['}']);
    MemberThen(args[0], v, depth, tail, before);
    Regroup(PrintMember(args[0].key, args[0].value), Join(args[1..]));
  }

  lemma Regroup(first: string, more: string)
    ensures first + [','] + more + ['}'] == first + ([','] + (more + ['}']))
    ensures ([','] + (more + ['}']))[1..] == more + ['}']
  {
  }

  lemma AppendSorted(before: seq<Pair<Json>>, members: seq<Pair<Json>>)
    requires members != [] && Sorted(before + members)
    ensures Insert(before, members[0].key, members[0].value) == before + [members[0]]
  {
    var all := before + members;
    forall p | p in before ensures Less(p.key, members[0].key) {
      var i :| 0 <= i < |before| && before[i] == p;
      assert all[i] == p && all[|before|] == members[0];
    }
    InsertLast(before, members[0].key, members[0].value);
  }

  lemma JoinedObjectReads(args: seq<Pair<string>>, members: seq<Pair<Json>>, depth: nat)
    requires ArgumentsRead(args, members, depth) && Sorted(members)
    ensures Parse(['{'] + Join(args) + ['}'], depth + 1) == Some(Object(members))
  {
    var t := Join(args) + ['}'];
    assert ['{'] + Join(args) + ['}'] == ['{'] + t;
    if args == [] {
      SeesHead('}', []);
    } else {
      assert t == ['\"'] + t[1..];
      SeesHead('\"', t[1..]);
      assert [] + members == members;
      JoinedMembersRead(args, members, depth, []);
    }
    ObjectOpens(t, depth);
  }

  /** Reading undoes printing, at every depth the limit allows. */
  lemma {:induction false} ParseUndoesPrint(v: Json, depth: nat)
    requires WellFormed(v) && Within(v, depth)
    ensures Parse(Print(v), depth) == Some(v)
    decreases v
  {
    match v
    case Array(items) =>
      ParseUndoesPrintItems(items, depth - 1);
      ArrayRoundTrip(items, depth - 1);
    case Object(members) =>
      ParseUndoesPrintMembers(members, depth - 1);
      PrintMembersJoins(members);
      JoinedObjectReads(Texts(members), members, depth - 1);
    case _ => ScalarRoundTrip(v, depth);
  }

  lemma {:induction false} ParseUndoesPrintItems(items: seq<Json>, depth: nat)
    requires forall i | 0 <= i < |items| :: WellFormed(items[i]) && Within(items[i], depth)
    ensures ItemsRead(items, depth)
    decreases items
  {
    forall i | 0 <= i < |items| ensures Parse(Print(items[i]), depth) == Some(items[i]) {
      ParseUndoesPrint(items[i], depth);
    }
  }

  lemma {:induction false} ParseUndoesPrintMembers(members: seq<Pair<Json>>, depth: nat)
    requires forall i | 0 <= i < |members| :: WellFormed(members[i].value) && Within(members[i].value, depth)
    ensures ArgumentsRead(Texts(members), members, depth)
    decreases members
  {
    forall i | 0 <= i < |members| ensures Parse(Print(members[i].value), depth) == Some(members[i].value) {
      ParseUndoesPrint(members[i].value, depth);
    }
  }

  lemma ArrayRoundTrip(items: seq<Json>, depth: nat)
    requires ItemsRead(items, depth) && WellFormed(Array(items))
    ensures Parse(Print(Array(items)), depth + 1) == Some(Array(items))
  {
    var t := PrintItems(items) + [']'];
    assert Print(Array(items)) == ['['] + t;
    if items == [] {
      SeesHead(']', []);
    } else {
      PrintStarts(items[0]);
      assert t == [Print(items[0])[0]] + t[1..];
      SeesHead(t[0], t[1..]);
      ItemsRoundTrip(items, depth);
    }
    ArrayOpens(t, depth);
  }

  // -- what reading gives -------------------------------------------------

  ghost predicate Sound(v: Json, depth: nat) { WellFormed(v) && Within(v, depth) }

  /** Whatever is read is well formed and no deeper than the limit. */
  lemma {:induction false} ParseValueSound(s: string, depth: nat)
    requires ParseValue(s, depth).Done?
    ensures Sound(ParseValue(s, depth).value, depth)
    decreases |s|, 1
  {
    if Sees(s, '[') {
      var r := ParseArray(After(s), depth - 1);
      if !Sees(After(s), ']') { ParseItemsSound(After(s), depth - 1); }
      assert forall i | 0 <= i < |r.value| :: Sound(r.value[i], depth - 1);
    } else if Sees(s, '{') {
      var r := ParseObject(After(s), depth - 1);
      if !Sees(After(s), '}') { ParseMembersSound(After(s), depth - 1, []); }
      assert MembersSound(r.value, depth - 1);
    }
  }

  lemma {:induction false} ParseItemsSound(s: string, depth: nat)
    requires ParseItems(s, depth).Done?
    ensures forall v | v in ParseItems(s, depth).value :: Sound(v, depth)
    decreases |s|, 2
  {
    var v := ParseValue(s, depth);
    ParseValueSound(s, depth);
    if !Sees(v.rest, ']') { ParseItemsSound(After(v.rest), depth); }
  }

  ghost predicate MembersSound(members: seq<Pair<Json>>, depth: nat) {
    Sorted(members) && forall p | p in members :: Sound(p.value, depth)
  }

  lemma {:induction false} ParseMembersSound(s: string, depth: nat, members: seq<Pair<Json>>)
    requires ParseMembers(s, depth, members).Done? && MembersSound(members, depth)
    ensures MembersSound(ParseMembers(s, depth, members).value, depth)
    decreases |s|, 2
  {
    var k := ParseKey(s);
    var v := ParseValue(k.rest, depth);
    ParseValueSound(k.rest, depth);
    InsertMeaning(members, k.value, v.value);
    if !Sees(v.rest, '}') { ParseMembersSound(After(v.rest), depth, Insert(members, k.value, v.value)); }
  }

  /** Raising the limit changes nothing that was read. */
  lemma {:induction false} ParseDeeper(s: string, depth: nat)
    requires ParseValue(s, depth).Done?
    ensures ParseValue(s, depth + 1) == ParseValue(s, depth)
    decreases |s|, 1
  {
    if Sees(s, '[') {
      ParseArrayDeeper(After(s), depth - 1);
    } else if Sees(s, '{') {
      ParseObjectDeeper(After(s), depth - 1);
    }
  }

  lemma {:induction false} ParseArrayDeeper(s: string, depth: nat)
    requires ParseArray(s, depth).Done?
    ensures ParseArray(s, depth + 1) == ParseArray(s, depth)
    decreases |s|, 3
  {
    if !Sees(s, ']') { ParseItemsDeeper(s, depth); }
  }

  lemma {:induction false} ParseObjectDeeper(s: string, depth: nat)
    requires ParseObject(s, depth).Done?
    ensures ParseObject(s, depth + 1) == ParseObject(s, depth)
    decreases |s|, 3
  {
    if !Sees(s, '}') { ParseMembersDeeper(s, depth, []); }
  }

  lemma {:induction false} ParseItemsDeeper(s: string, depth: nat)
    requires ParseItems(s, depth).Done?
    ensures ParseItems(s, depth + 1) == ParseItems(s, depth)
    decreases |s|, 2
  {
    var v := ParseValue(s, depth);
    ParseDeeper(s, depth);
    if !Sees(v.rest, ']') { ParseItemsDeeper(After(v.rest), depth); }
  }

  lemma {:induction false} ParseMembersDeeper(s: string, depth: nat, members: seq<Pair<Json>>)
    requires ParseMembers(s, depth, members).Done?
    ensures ParseMembers(s, depth + 1, members) == ParseMembers(s, depth, members)
    decreases |s|, 2
  {
    var k := ParseKey(s);
    var v := ParseValue(k.rest, depth);
    ParseDeeper(k.rest, depth);
    if !Sees(v.rest, '}') { ParseMembersDeeper(After(v.rest), depth, Insert(members, k.value, v.value)); }
  }

  // -- what counts as a number and as a string ----------------------------

  predicate AllDigits(s: string) { forall c | c in s :: '0' <= c <= '9' }

  /** Section 6 of RFC 8259: an exponent, which may be missing. */
  predicate ExpPart(s: string) {
    s == [] ||
    ((s[0] == 'e' || s[0] == 'E') && |s| > 1 &&
     if s[1] == '+' || s[1] == '-' then |s| > 2 && AllDigits(s[2..]) else AllDigits(s[1..]))
  }

  /** Digits, then an exponent. */
  predicate DigitsThenExp(s: string) { ExpPart(s) || (s != [] && '0' <= s[0] <= '9' && DigitsThenExp(s[1..])) }

  /** A fraction, which may be missing, then an exponent. */
  predicate FractionPart(s: string) {
    ExpPart(s) || (|s| > 1 && s[0] == '.' && '0' <= s[1] <= '9' && DigitsThenExp(s[2..]))
  }

  /** Digits, then a fraction and an exponent. */
  predicate DigitsThenFraction(s: string) {
    FractionPart(s) || (s != [] && '0' <= s[0] <= '9' && DigitsThenFraction(s[1..]))
  }

  /** No leading zero before other digits. */
  predicate Unsigned(s: string) {
    s != [] && if s[0] == '0' then FractionPart(s[1..]) else '1' <= s[0] <= '9' && DigitsThenFraction(s[1..])
  }

  predicate NumberText(s: string) { if s != [] && s[0] == '-' then Unsigned(s[1..]) else Unsigned(s) }

  predicate Accepts(q: NumberState, s: string) { NumberScan(q, s) in {Zero, Whole, Fraction, ExpDigits} }

  lemma AcceptsStep(q: NumberState, s: string)
    requires s != []
    ensures Accepts(q, s) <==> Accepts(NumberStep(q, s[0]), s[1..])
  {
  }

  lemma {:induction false} BadStays(s: string)
    ensures !Accepts(Bad, s)
  {
    if s != [] { BadStays(s[1..]); }
  }

  lemma DigitsCons(s: string)
    requires s != []
    ensures AllDigits(s) <==> '0' <= s[0] <= '9' && AllDigits(s[1..])
  {
    assert forall c | c in s :: c == s[0] || c in s[1..];
    assert forall c | c in s[1..] :: c in s;
    assert s[0] in s;
  }

  lemma {:induction false} ExpDigitsAccept(s: string)
    ensures Accepts(ExpDigits, s) <==> AllDigits(s)
  {
    if s != [] {
      AcceptsStep(ExpDigits, s);
      ExpDigitsAccept(s[1..]);
      BadStays(s[1..]);
      DigitsCons(s);
    }
  }

  lemma ExpSignAccepts(s: string)
    ensures Accepts(ExpSign, s) <==> s != [] && AllDigits(s)
  {
    if s != [] {
      AcceptsStep(ExpSign, s);
      ExpDigitsAccept(s[1..]);
      BadStays(s[1..]);
      DigitsCons(s);
    }
  }

  lemma ExpAccepts(s: string)
    requires s != [] && (s[0] == 'e' || s[0] == 'E')
    ensures Accepts(Exp, s[1..]) <==> ExpPart(s)
  {
    var t := s[1..];
    if t != [] {
      assert t[0] == s[1] && t[1..] == s[2..];
      AcceptsStep(Exp, t);
      BadStays(t[1..]);
      ExpSignAccepts(t[1..]);
      ExpDigitsAccept(t[1..]);
      DigitsCons(t);
    }
  }

  lemma {:induction false} FractionAccepts(s: string)
    ensures Accepts(Fraction, s) <==> DigitsThenExp(s)
  {
    if s != [] {
      AcceptsStep(Fraction, s);
      FractionAccepts(s[1..]);
      BadStays(s[1..]);
      if s[0] == 'e' || s[0] == 'E' { ExpAccepts(s); }
    }
  }

  lemma ZeroAccepts(s: string)
    ensures Accepts(Zero, s) <==> FractionPart(s)
  {
    if s != [] {
      AcceptsStep(Zero, s);
      BadStays(s[1..]);
      if s[0] == 'e' || s[0] == 'E' { ExpAccepts(s); }
      if s[0] == '.' && |s| > 1 {
        AcceptsStep(Point, s[1..]);
        FractionAccepts(s[2..]);
        BadStays(s[2..]);
        assert s[1..][1..] == s[2..];
      }
    }
  }

  lemma {:induction false} WholeAccepts(s: string)
    ensures Accepts(Whole, s) <==> DigitsThenFraction(s)
  {
    if s != [] {
      AcceptsStep(Whole, s);
      WholeAccepts(s[1..]);
      if !('0' <= s[0] <= '9') {
        ZeroAccepts(s);
        AcceptsStep(Zero, s);
      }
    }
  }

  lemma UnsignedAccepts(s: string)
    ensures Accepts(Minus, s) <==> Unsigned(s)
  {
    if s != [] {
      AcceptsStep(Minus, s);
      BadStays(s[1..]);
      ZeroAccepts(s[1..]);
      WholeAccepts(s[1..]);
    }
  }

  lemma {:induction false} NumberTextChars(s: string)
    requires NumberText(s)
    ensures NumberChars(s)
  {
    var t := if s[0] == '-' then s[1..] else s;
    assert t == [t[0]] + t[1..];
    if t[0] == '0' { FractionChars(t[1..]); } else { DigitsFractionChars(t[1..]); }
    assert s[0] == '-' ==> s == [s[0]] + t;
  }

  lemma ExpChars(s: string)
    requires ExpPart(s)
    ensures NumberChars(s)
  {
    if s != [] {
      assert s == [s[0]] + s[1..];
      if s[1] == '+' || s[1] == '-' { assert s == [s[0]] + [s[1]] + s[2..]; }
    }
  }

  lemma {:induction false} DigitsExpChars(s: string)
    requires DigitsThenExp(s)
    ensures NumberChars(s)
  {
    if ExpPart(s) {
      ExpChars(s);
    } else {
      DigitsExpChars(s[1..]);
      assert s == [s[0]] + s[1..];
    }
  }

  lemma FractionChars(s: string)
    requires FractionPart(s)
    ensures NumberChars(s)
  {
    if ExpPart(s) {
      ExpChars(s);
    } else {
      DigitsExpChars(s[2..]);
      assert s == [s[0]] + [s[1]] + s[2..];
    }
  }

  lemma {:induction false} DigitsFractionChars(s: string)
    requires DigitsThenFraction(s)
    ensures NumberChars(s)
  {
    if FractionPart(s) {
      FractionChars(s);
    } else {
      DigitsFractionChars(s[1..]);
      assert s == [s[0]] + s[1..];
    }
  }

  /** The tokens read as numbers are exactly those of the number grammar. */
  lemma ValidNumberMeaning(token: string)
    ensures ValidNumber(token) <==> NumberText(token)
  {
    if token != [] {
      AcceptsStep(Begin, token);
      UnsignedAccepts(token[1..]);
      UnsignedAccepts(token);
      AcceptsStep(Minus, token);
      if NumberText(token) { NumberTextChars(token); }
    }
  }

  /** A string holds no raw control character, and a backslash starts one of the escapes of section 7 of
      RFC 8259. */
  lemma StringChars(s: string)
    requires ParseString(s).Done?
    ensures s != [] && s[0] as int >= 0x20 && (s[0] == '\\' ==> |s| > 1 && Escapes(s[1]))
  {
    if s == [] || s[0] != '\"' { CharOfString(s); }
  }

  predicate Escapes(c: char) {
    c == '\"' || c == '\\' || c == '/' || c == 'b' || c == 'f' || c == 'n' || c == 'r' || c == 't' || c == 'u'
  }

  lemma CharOfString(s: string)
    requires ParseChar(s).Done?
    ensures s != [] && s[0] as int >= 0x20 && (s[0] == '\\' ==> |s| > 1 && Escapes(s[1]))
  {
  }
}
