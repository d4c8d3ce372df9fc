/** Maps ordered by a text key, as sequences of pairs. */
module SortedMaps {

  datatype Pair<+V> = Pair(key: string, value: V)

  /** Lexicographic order of code points, which is the byte order of UTF-8. */
  predicate Less(a: string, b: string) {
    b != [] && (a == [] || a[0] < b[0] || (a[0] == b[0] && Less(a[1..], b[1..])))
  }

  /** A map ordered by key. */
  ghost predicate Sorted<V>(m: seq<Pair<V>>) {
    forall i, j | 0 <= i < j < |m| :: Less(m[i].key, m[j].key)
  }

  /** `BTreeMap::insert`. */
  function Insert<V>(m: seq<Pair<V>>, key: string, value: V): seq<Pair<V>> {
    if m == [] then [Pair(key, value)]
    else if m[0].key == key then [Pair(key, value)] + m[1..]
    else if Less(key, m[0].key) then [Pair(key, value)] + m
    else [m[0]] + Insert(m[1..], key, value)
  }

  lemma {:induction false} LessIrreflexive(a: string)
    ensures !Less(a, a)
  {
    if a != [] { LessIrreflexive(a[1..]); }
  }

  lemma {:induction false} LessTransitive(a: string, b: string, c: string)
    requires Less(a, b) && Less(b, c)
    ensures Less(a, c)
  {
    if a != [] && a[0] == b[0] && b[0] == c[0] { LessTransitive(a[1..], b[1..], c[1..]); }
  }

  lemma {:induction false} LessTotal(a: string, b: string)
    ensures Less(a, b) || a == b || Less(b, a)
  {
    if a != [] && b != [] && a[0] == b[0] {
      LessTotal(a[1..], b[1..]);
      assert a == [a[0]] + a[1..] && b == [b[0]] + b[1..];
    }
  }

  lemma {:induction false} InsertLast<V>(m: seq<Pair<V>>, key: string, value: V)
    requires forall p | p in m :: Less(p.key, key)
    ensures Insert(m, key, value) == m + [Pair(key, value)]
  {
    if m != [] {
      assert Less(m[0].key, key);
      LessIrreflexive(key);
      if Less(key, m[0].key) { LessTransitive(key, m[0].key, key); }
      InsertLast(m[1..], key, value);
    }
  }

  ghost predicate Sets<V(!new)>(before: seq<Pair<V>>, after: seq<Pair<V>>, key: string, value: V) {
    forall p :: p in after <==> p == Pair(key, value) || (p in before && p.key != key)
  }

  /** Inserting keeps the order, sets the key and touches no other entry. */
  lemma {:induction false} InsertMeaning<V(!new)>(m: seq<Pair<V>>, key: string, value: V)
    requires Sorted(m)
    ensures Sorted(Insert(m, key, value))
    ensures Sets(m, Insert(m, key, value), key, value)
  {
    LessIrreflexive(key);
    if m != [] {
      LessTotal(key, m[0].key);
      if m[0].key == key {
        forall p | p in m[1..] ensures p.key != key { assert Less(key, p.key); }
      } else if Less(key, m[0].key) {
        forall p | p in m ensures Less(key, p.key) {
          if p != m[0] { LessTransitive(key, m[0].key, p.key); }
        }
      } else {
        InsertMeaning(m[1..], key, value);
        var rest := Insert(m[1..], key, value);
        forall p | p in rest ensures Less(m[0].key, p.key) {
          if p != Pair(key, value) {
            assert p in Insert(m[1..], key, value);
            assert p in m[1..];
          }
        }
      }
    }
  }
}

/**
 JSON texts as serde_json prints and reads them (sections 4 to 7 of RFC 8259):
 values, a compact printer and a recursive-descent parser with a nesting limit.
 Objects are sorted maps; a repeated key keeps its last value. A number is kept
 as its token.
 */
module Json {

  import opened Wrappers
  import opened SortedMaps

  datatype Json =
    | Null
    | Bool(truth: bool)
    | Number(token: string)
    | String(text: string)
    | Array(items: seq<Json>)
    | Object(members: seq<Pair<Json>>)

  datatype Parsed<+T> = Fail | Done(value: T, rest: string)

  // -- numbers ------------------------------------------------------------

  predicate IsDigit(c: char) { '0' <= c <= '9' }

  predicate InNumber(c: char) {
    IsDigit(c) || c == '-' || c == '+' || c == '.' || c == 'e' || c == 'E'
  }

  datatype NumberState = Begin | Minus | Zero | Whole | Point | Fraction | Exp | ExpSign | ExpDigits | Bad

  function FirstDigit(c: char): NumberState { if c == '0' then Zero else if IsDigit(c) then Whole else Bad }

  function AfterWhole(c: char): NumberState {
    if c == '.' then Point else if c == 'e' || c == 'E' then Exp else Bad
  }

  /** The automaton of the number grammar. */
  function NumberStep(q: NumberState, c: char): NumberState {
    match q
    case Begin => if c == '-' then Minus else FirstDigit(c)
    case Minus => FirstDigit(c)
    case Zero => AfterWhole(c)
    case Whole => if IsDigit(c) then Whole else AfterWhole(c)
    case Point => if IsDigit(c) then Fraction else Bad
    case Fraction => if IsDigit(c) then Fraction else if c == 'e' || c == 'E' then Exp else Bad
    case Exp => if c == '+' || c == '-' then ExpSign else if IsDigit(c) then ExpDigits else Bad
    case ExpSign => if IsDigit(c) then ExpDigits else Bad
    case ExpDigits => if IsDigit(c) then ExpDigits else Bad
    case Bad => Bad
  }

  function NumberScan(q: NumberState, token: string): NumberState
    decreases |token|
  {
    if token == [] then q else NumberScan(NumberStep(q, token[0]), token[1..])
  }

  predicate NumberChars(token: string) { forall c | c in token :: InNumber(c) }

  predicate ValidNumber(token: string) {
    && token != [] && (token[0] == '-' || IsDigit(token[0]))
    && NumberChars(token)
    && NumberScan(Begin, token) in {Zero, Whole, Fraction, ExpDigits}
  }

  /** How many characters the longest run of number characters holds. */
  function NumberRun(s: string): (n: nat)
    ensures n <= |s| && NumberChars(s[..n])
  {
    if s == [] || !InNumber(s[0]) then 0
    else
      var n := NumberRun(s[1..]);
      assert s[..n + 1] == [s[0]] + s[1..][..n];
      n + 1
  }

  function ParseNumber(s: string): (r: Parsed<Json>)
    ensures r.Done? ==> |r.rest| < |s|
  {
    var n := NumberRun(s);
    if ValidNumber(s[..n]) then Done(Number(s[..n]), s[n..]) else Fail
  }

  // -- strings ------------------------------------------------------------

  function HexValue(c: char): int {
    if IsDigit(c) then c as int - '0' as int
    else if 'a' <= c <= 'f' then c as int - 'a' as int + 10
    else if 'A' <= c <= 'F' then c as int - 'A' as int + 10
    else -1
  }

  /** Four hexadecimal digits, or -1. */
  function HexQuad(s: string): (n: int)
    ensures -1 <= n < 0x1_0000
    ensures n >= 0 ==> |s| >= 4
  {
    if |s| < 4 || HexValue(s[0]) < 0 || HexValue(s[1]) < 0 || HexValue(s[2]) < 0 || HexValue(s[3]) < 0 then -1
    else HexValue(s[0]) * 0x1000 + HexValue(s[1]) * 0x100 + HexValue(s[2]) * 0x10 + HexValue(s[3])
  }

  /** After `\u`: one code unit, or a surrogate pair written as two escapes. */
  function ParseUnicode(s: string): (r: Parsed<char>)
    ensures r.Done? ==> |r.rest| < |s|
  {
    var n := HexQuad(s);
    if n < 0 || 0xDC00 <= n < 0xE000 then Fail
    else if n < 0xD800 || 0xE000 <= n then Done(n as char, s[4..])
    else if |s| < 6 || s[4] != '\\' || s[5] != 'u' then Fail
    else
      var low := HexQuad(s[6..]);
      if low < 0xDC00 || 0xE000 <= low then Fail
      else Done((0x1_0000 + (n - 0xD800) * 0x400 + (low - 0xDC00)) as char, s[10..])
  }

  /** After a backslash. */
  function ParseEscape(s: string): (r: Parsed<char>)
    ensures r.Done? ==> |r.rest| < |s|
  {
    if s == [] then Fail
    else if s[0] == '\"' || s[0] == '\\' || s[0] == '/' then Done(s[0], s[1..])
    else if s[0] == 'b' then Done(8 as char, s[1..])
    else if s[0] == 'f' then Done(12 as char, s[1..])
    else if s[0] == 'n' then Done('\n', s[1..])
    else if s[0] == 'r' then Done('\r', s[1..])
    else if s[0] == 't' then Done('\t', s[1..])
    else if s[0] == 'u' then ParseUnicode(s[1..])
    else Fail
  }

  /** One character of a string, which is not the closing quote. */
  function ParseChar(s: string): (r: Parsed<char>)
    ensures r.Done? ==> |r.rest| < |s|
  {
    if s == [] || (s[0] as int) < 0x20 then Fail
    else if s[0] == '\\' then ParseEscape(s[1..])
    else Done(s[0], s[1..])
  }

  /** After the opening quote. */
  function ParseString(s: string): (r: Parsed<string>)
    ensures r.Done? ==> |r.rest| < |s|
    decreases |s|
  {
    if s != [] && s[0] == '\"' then Done([], s[1..])
    else
      var c := ParseChar(s);
      if c.Fail? then Fail
      else
        var more := ParseString(c.rest);
        if more.Fail? then Fail else Done([c.value] + more.value, more.rest)
  }

  // -- values -------------------------------------------------------------

  predicate IsSpace(c: char) { c == ' ' || c == '\n' || c == '\r' || c == '\t' }

  function SkipSpace(s: string): (r: string)
    ensures |r| <= |s|
    ensures r != [] ==> !IsSpace(r[0])
  {
    if s != [] && IsSpace(s[0]) then SkipSpace(s[1..]) else s
  }

  /** The next character that is not a space is `c`. */
  predicate Sees(s: string, c: char) {
    var t := SkipSpace(s); t != [] && t[0] == c
  }

  function After(s: string): (r: string)
    requires SkipSpace(s) != []
    ensures |r| < |s|
  {
    SkipSpace(s)[1..]
  }

  function ParseWord(s: string, word: string, v: Json): (r: Parsed<Json>)
    requires word != []
    ensures r.Done? ==> |r.rest| < |s|
  {
    if |word| <= |s| && s[..|word|] == word then Done(v, s[|word|..]) else Fail
  }

  function ParseScalar(s: string): (r: Parsed<Json>)
    ensures r.Done? ==> |r.rest| < |s|
  {
    if s == [] then Fail
    else if s[0] == 'n' then ParseWord(s, "null", Null)
    else if s[0] == 't' then ParseWord(s, "true", Bool(true))
    else if s[0] == 'f' then ParseWord(s, "false", Bool(false))
    else if s[0] == '\"' then
      var r := ParseString(s[1..]);
      if r.Fail? then Fail else Done(String(r.value), r.rest)
    else ParseNumber(s)
  }

  /** At most `depth` containers may be open at once. */
  function ParseValue(s: string, depth: nat): (r: Parsed<Json>)
    ensures r.Done? ==> |r.rest| < |s|
    decreases |s|, 1
  {
    if Sees(s, '[') then
      if depth == 0 then Fail
      else
        var r := ParseArray(After(s), depth - 1);
        if r.Fail? then Fail else Done(Array(r.value), r.rest)
    else if Sees(s, '{') then
      if depth == 0 then Fail
      else
        var r := ParseObject(After(s), depth - 1);
        if r.Fail? then Fail else Done(Object(r.value), r.rest)
    else ParseScalar(SkipSpace(s))
  }

  function ParseArray(s: string, depth: nat): (r: Parsed<seq<Json>>)
    ensures r.Done? ==> |r.rest| < |s|
    decreases |s|, 3
  {
    if Sees(s, ']') then Done([], After(s)) else ParseItems(s, depth)
  }

  function ParseItems(s: string, depth: nat): (r: Parsed<seq<Json>>)
    ensures r.Done? ==> |r.rest| < |s|
    decreases |s|, 2
  {
    var v := ParseValue(s, depth);
    if v.Fail? then Fail
    else if Sees(v.rest, ']') then Done([v.value], After(v.rest))
    else if Sees(v.rest, ',') then
      var more := ParseItems(After(v.rest), depth);
      if more.Fail? then Fail else Done([v.value] + more.value, more.rest)
    else Fail
  }

  function ParseObject(s: string, depth: nat): (r: Parsed<seq<Pair<Json>>>)
    ensures r.Done? ==> |r.rest| < |s|
    decreases |s|, 3
  {
    if Sees(s, '}') then Done([], After(s)) else ParseMembers(s, depth, [])
  }

  /** A key and the colon after it. */
  function ParseKey(s: string): (r: Parsed<string>)
    ensures r.Done? ==> |r.rest| < |s|
  {
    if !Sees(s, '\"') then Fail
    else
      var k := ParseString(After(s));
      if k.Fail? || !Sees(k.rest, ':') then Fail else Done(k.value, After(k.rest))
  }

  function ParseMembers(s: string, depth: nat, members: seq<Pair<Json>>): (r: Parsed<seq<Pair<Json>>>)
    ensures r.Done? ==> |r.rest| < |s|
    decreases |s|, 2
  {
    var k := ParseKey(s);
    if k.Fail? then Fail
    else
      var v := ParseValue(k.rest, depth);
      if v.Fail? then Fail
      else
        var more := Insert(members, k.value, v.value);
        if Sees(v.rest, '}') then Done(more, After(v.rest))
        else if Sees(v.rest, ',') then ParseMembers(After(v.rest), depth, more)
        else Fail
  }

  /** `serde_json::from_str` into a value: one value and nothing but space after it. */
  function Parse(s: string, depth: nat): Option<Json> {
    var r := ParseValue(s, depth);
    if r.Done? && SkipSpace(r.rest) == [] then Some(r.value) else None
  }

  // -- printing -----------------------------------------------------------

  function PrintChar(c: char): string {
    if c == '\"' then ['\\', '\"']
    else if c == '\\' then ['\\', '\\']
    else if c == 8 as char then ['\\', 'b']
    else if c == '\t' then ['\\', 't']
    else if c == '\n' then ['\\', 'n']
    else if c == 12 as char then ['\\', 'f']
    else if c == '\r' then ['\\', 'r']
    else if (c as int) < 0x20 then ['\\', 'u', '0', '0', HexDigit(c as int / 16), HexDigit(c as int % 16)]
    else [c]
  }

  function PrintChars(s: string): string {
    if s == [] then [] else PrintChar(s[0]) + PrintChars(s[1..])
  }

  function PrintString(s: string): string { ['\"'] + PrintChars(s) + ['\"'] }

  /** `serde_json::to_string`. */
  function Print(v: Json): string
    decreases v
  {
    match v
    case Null => "null"
    case Bool(b) => if b then "true" else "false"
    case Number(token) => token
    case String(text) => PrintString(text)
    case Array(items) => ['['] + PrintItems(items) + [']']
    case Object(members) => ['{'] + PrintMembers(members) + ['}']
  }

  function PrintItems(items: seq<Json>): string
    decreases items
  {
    if items == [] then []
    else if |items| == 1 then Print(items[0])
    else Print(items[0]) + [','] + PrintItems(items[1..])
  }

  function PrintMember(key: string, value: string): string { PrintString(key) + [':'] + value }

  function PrintMembers(members: seq<Pair<Json>>): string
    decreases members
  {
    if members == [] then []
    else if |members| == 1 then PrintMember(members[0].key, Print(members[0].value))
    else PrintMember(members[0].key, Print(members[0].value)) + [','] + PrintMembers(members[1..])
  }

  // -- well-formed values and their depth ---------------------------------

  ghost predicate WellFormed(v: Json)
    decreases v
  {
    match v
    case Number(token) => ValidNumber(token)
    case Array(items) => forall i | 0 <= i < |items| :: WellFormed(items[i])
    case Object(members) => Sorted(members) && forall i | 0 <= i < |members| :: WellFormed(members[i].value)
    case _ => true
  }

  /** At most `depth` containers are nested in `v`. */
  ghost predicate Within(v: Json, depth: nat)
    decreases v
  {
    match v
    case Array(items) => depth > 0 && forall i | 0 <= i < |items| :: Within(items[i], depth - 1)
    case Object(members) => depth > 0 && forall i | 0 <= i < |members| :: Within(members[i].value, depth - 1)
    case _ => true
  }
}
