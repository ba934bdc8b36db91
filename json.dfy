/** The part of JSON.stringify / JSON.parse that the chat provider relies on
    when it persists records to string storage: null, booleans, integers,
    strings and objects. `Stringify` writes the compact form JSON.stringify
    produces (no whitespace, members in insertion order, the escapes of
    the QuoteJSONString operation of ECMA-262); `Parse` reads JSON text of the same
    grammar and fails on anything else. The main result is the round trip
    `Parse(Stringify(v)) == Some(v)`. */
module Json {
  import opened Wrappers

  datatype Value =
    | Null
    | Bool(b: bool)
    | Num(n: int)
    | Str(s: string)
    | Obj(members: Members)

  /** Object members in the order they were written. */
  datatype Members = Empty | Member(key: string, value: Value, tail: Members)

  /** Property read on a parsed object: JSON.parse keeps the last of
      several members with the same key. */
  function Lookup(ms: Members, key: string): (r: Option<Value>)
    ensures r.None? ==> !HasKey(ms, key)
    ensures r.Some? ==> HasKey(ms, key) && LastMember(ms, key, r.value)
  {
    match ms
    case Empty => None
    case Member(k, v, tail) =>
      var later := Lookup(tail, key);
      if later.Some? then later else if k == key then Some(v) else None
  }

  predicate HasKey(ms: Members, key: string) {
    match ms
    case Empty => false
    case Member(k, _, tail) => k == key || HasKey(tail, key)
  }

  /** Some member of `ms` is `key: v` and no member after it has `key`. */
  predicate LastMember(ms: Members, key: string, v: Value) {
    match ms
    case Empty => false
    case Member(k, x, tail) => (k == key && x == v && !HasKey(tail, key)) || LastMember(tail, key, v)
  }

  // ---------------------------------------------------------------------
  // Characters and digits

  predicate IsDigit(c: char) { '0' <= c <= '9' }

  function DigitChar(d: nat): (c: char)
    requires d < 10
    ensures IsDigit(c) && DigitOf(c) == d
  {
    ('0' as int + d) as char
  }

  function DigitOf(c: char): nat
    requires IsDigit(c)
  {
    c as int - '0' as int
  }

  /** Lower-case hexadecimal digit, as JSON.stringify writes them. */
  function HexChar(d: nat): (c: char)
    requires d < 16
    ensures IsHex(c) && HexOf(c) == d
  {
    if d < 10 then DigitChar(d) else ('a' as int + d - 10) as char
  }

  predicate IsHex(c: char) { IsDigit(c) || 'a' <= c <= 'f' || 'A' <= c <= 'F' }

  function HexOf(c: char): nat
    requires IsHex(c)
  {
    if IsDigit(c) then DigitOf(c)
    else if 'a' <= c <= 'f' then c as int - 'a' as int + 10
    else c as int - 'A' as int + 10
  }

  // ---------------------------------------------------------------------
  // Writing

  /** Decimal text of an integer, with a leading '-' for negatives. */
  function IntText(n: int): string {
    if n < 0 then "-" + NatText(-n) else NatText(n)
  }

  function NatText(n: nat): (t: string)
    ensures |t| > 0
    ensures forall i :: 0 <= i < |t| ==> IsDigit(t[i])
    ensures n > 0 ==> t[0] != '0'
    ensures n == 0 ==> t == "0"
  {
    if n < 10 then [DigitChar(n)] else NatText(n / 10) + [DigitChar(n % 10)]
  }

  /** The escape JSON.stringify writes for one character of a string. */
  function EscapeChar(c: char): string {
    var k := c as int;
    if c == '"' then ['\\', '"']
    else if c == '\\' then ['\\', '\\']
    else if k == 0x08 then ['\\', 'b']
    else if k == 0x0C then ['\\', 'f']
    else if k == 0x0A then ['\\', 'n']
    else if k == 0x0D then ['\\', 'r']
    else if k == 0x09 then ['\\', 't']
    else if k < 0x20 then ['\\', 'u', '0', '0', HexChar(k / 16), HexChar(k % 16)]
    else [c]
  }

  function Escape(s: string): string {
    if s == [] then [] else EscapeChar(s[0]) + Escape(s[1..])
  }

  function Quote(s: string): (t: string)
    ensures |t| >= 2 && t[0] == '"'
  {
    ['"'] + Escape(s) + ['"']
  }

  function Stringify(v: Value): (t: string)
    ensures |t| > 0
    decreases v, 1
  {
    match v
    case Null => "null"
    case Bool(b) => if b then "true" else "false"
    case Num(n) => IntText(n)
    case Str(s) => Quote(s)
    case Obj(ms) => "{" + StringifyMembers(ms) + "}"
  }

  /** The members of an object, separated by commas (without the braces). */
  function StringifyMembers(ms: Members): string
    decreases ms, 0
  {
    match ms
    case Empty => ""
    case Member(k, v, tail) =>
      Quote(k) + ":" + Stringify(v) + TailText(tail)
  }

  /** The text after an object's first member: nothing, or a comma and the others. */
  function TailText(tail: Members): string
    decreases tail, 1
  {
    if tail.Empty? then "" else "," + StringifyMembers(tail)
  }

  // ---------------------------------------------------------------------
  // Reading

  /** Whole-text parse: a value that uses the entire input. */
  function Parse(s: string): Option<Value> {
    match ParseValue(s)
    case Some((v, rest)) => if rest == [] then Some(v) else None
    case None => None
  }

  /** Reads one value at the front of `s`; returns it and the input left over. */
  function ParseValue(s: string): (r: Option<(Value, string)>)
    ensures r.Some? ==> |r.value.1| < |s|
    decreases |s|, 2
  {
    if |s| == 0 then None
    else if s[0] == 'n' then
      if |s| >= 4 && s[..4] == "null" then Some((Null, s[4..])) else None
    else if s[0] == 't' then
      if |s| >= 4 && s[..4] == "true" then Some((Bool(true), s[4..])) else None
    else if s[0] == 'f' then
      if |s| >= 5 && s[..5] == "false" then Some((Bool(false), s[5..])) else None
    else if s[0] == '"' then
      match ParseString(s[1..])
      case Some((str, rest)) => Some((Str(str), rest))
      case None => None
    else if s[0] == '-' || IsDigit(s[0]) then
      match ParseInt(s)
      case Some((n, rest)) => Some((Num(n), rest))
      case None => None
    else if s[0] == '{' then
      ParseObject(s[1..])
    else None
  }

  /** Reads an object whose opening brace has been consumed. */
  function ParseObject(s: string): (r: Option<(Value, string)>)
    ensures r.Some? ==> |r.value.1| < |s|
    decreases |s|, 1
  {
    if |s| > 0 && s[0] == '}' then Some((Obj(Empty), s[1..]))
    else
      match ParseMembers(s)
      case Some((ms, rest)) => Some((Obj(ms), rest))
      case None => None
  }

  /** Reads `"key":value` members up to and including the closing brace. */
  function ParseMembers(s: string): (r: Option<(Members, string)>)
    ensures r.Some? ==> |r.value.1| < |s|
    decreases |s|, 0
  {
    if |s| == 0 || s[0] != '"' then None
    else
      match ParseString(s[1..])
      case None => None
      case Some((key, afterKey)) =>
        if |afterKey| == 0 || afterKey[0] != ':' then None
        else
          match ParseValue(afterKey[1..])
          case None => None
          case Some((v, afterValue)) =>
            if |afterValue| == 0 then None
            else if afterValue[0] == '}' then Some((Member(key, v, Empty), afterValue[1..]))
            else if afterValue[0] == ',' then
              match ParseMembers(afterValue[1..])
              case Some((tail, rest)) => Some((Member(key, v, tail), rest))
              case None => None
            else None
  }

  /** Reads the body of a string literal whose opening quote has been
      consumed, up to and including the closing quote. */
  function ParseString(s: string): (r: Option<(string, string)>)
    ensures r.Some? ==> |r.value.1| < |s|
    decreases |s|
  {
    if |s| == 0 then None
    else if s[0] == '"' then Some(([], s[1..]))
    else if s[0] == '\\' then
      match Unescape(s)
      case None => None
      case Some((c, n)) => Prepend(c, ParseString(s[n..]))
    else if (s[0] as int) < 0x20 then None
    else Prepend(s[0], ParseString(s[1..]))
  }

  function Prepend(c: char, r: Option<(string, string)>): Option<(string, string)> {
    match r
    case Some((t, rest)) => Some(([c] + t, rest))
    case None => None
  }

  /** Decodes the escape sequence at the front of `s`; returns the character
      and the number of input characters it used. */
  function Unescape(s: string): (r: Option<(char, nat)>)
    requires |s| > 0 && s[0] == '\\'
    ensures r.Some? ==> 2 <= r.value.1 <= |s|
  {
    if |s| < 2 then None
    else
      var e := s[1];
      if e == '"' then Some(('"', 2))
      else if e == '\\' then Some(('\\', 2))
      else if e == '/' then Some(('/', 2))
      else if e == 'b' then Some((0x08 as char, 2))
      else if e == 'f' then Some((0x0C as char, 2))
      else if e == 'n' then Some((0x0A as char, 2))
      else if e == 'r' then Some((0x0D as char, 2))
      else if e == 't' then Some((0x09 as char, 2))
      else if e == 'u' && |s| >= 6 && IsHex(s[2]) && IsHex(s[3]) && IsHex(s[4]) && IsHex(s[5]) then
        var k := HexOf(s[2]) * 4096 + HexOf(s[3]) * 256 + HexOf(s[4]) * 16 + HexOf(s[5]);
        if 0xD800 <= k < 0xE000 then None else Some((k as char, 6))
      else None
  }

  /** Reads an integer: an optional '-', then "0" or a non-zero digit
      followed by digits (fractions and exponents are not read). */
  function ParseInt(s: string): (r: Option<(int, string)>)
    ensures r.Some? ==> |r.value.1| < |s|
  {
    if |s| > 0 && s[0] == '-' then
      match ParseNat(s[1..])
      case Some((k, rest)) => Some((-(k as int), rest))
      case None => None
    else
      match ParseNat(s)
      case Some((k, rest)) => Some((k as int, rest))
      case None => None
  }

  function ParseNat(s: string): (r: Option<(nat, string)>)
    ensures r.Some? ==> |r.value.1| < |s|
  {
    if |s| == 0 || !IsDigit(s[0]) then None
    else if s[0] == '0' then Some((0, s[1..]))
    else
      var k := DigitRun(s);
      Some((DigitsValue(s[..k]), s[k..]))
  }

  /** Length of the run of digits at the front of `s`. */
  function DigitRun(s: string): (k: nat)
    ensures k <= |s|
    ensures forall i :: 0 <= i < k ==> IsDigit(s[i])
    ensures k < |s| ==> !IsDigit(s[k])
  {
    if |s| == 0 || !IsDigit(s[0]) then 0 else 1 + DigitRun(s[1..])
  }

  function DigitsValue(ds: string): nat
    requires forall i :: 0 <= i < |ds| ==> IsDigit(ds[i])
  {
    if ds == [] then 0 else DigitsValue(ds[..|ds| - 1]) * 10 + DigitOf(ds[|ds| - 1])
  }

  // ---------------------------------------------------------------------
  // Round trip

  /** What may follow a written value without changing how it reads back. */
  predicate Delimits(rest: string) { rest == [] || !IsDigit(rest[0]) }

  lemma {:induction false} NatTextValue(n: nat)
    ensures DigitsValue(NatText(n)) == n
  {
    if n >= 10 {
      var t := NatText(n / 10) + [DigitChar(n % 10)];
      assert t[..|t| - 1] == NatText(n / 10);
      NatTextValue(n / 10);
    }
  }

  lemma {:induction false} DigitRunOver(t: string, rest: string)
    requires forall i :: 0 <= i < |t| ==> IsDigit(t[i])
    requires Delimits(rest)
    ensures DigitRun(t + rest) == |t|
  {
    if t != [] {
      assert (t + rest)[1..] == t[1..] + rest;
      DigitRunOver(t[1..], rest);
    }
  }

  lemma {:induction false} NatRoundTrip(n: nat, rest: string)
    requires Delimits(rest)
    ensures ParseNat(NatText(n) + rest) == Some((n, rest))
  {
    var t := NatText(n);
    var s := t + rest;
    if n == 0 {
      assert s[1..] == rest;
    } else {
      DigitRunOver(t, rest);
      assert s[..|t|] == t;
      assert s[|t|..] == rest;
      NatTextValue(n);
    }
  }

  lemma {:induction false} IntRoundTrip(n: int, rest: string)
    requires Delimits(rest)
    ensures ParseInt(IntText(n) + rest) == Some((n, rest))
  {
    if n < 0 {
      var s := "-" + NatText(-n) + rest;
      assert s[1..] == NatText(-n) + rest;
      NatRoundTrip(-n, rest);
    } else {
      NatRoundTrip(n, rest);
    }
  }

  /** Reading one escaped character puts that character in front of
      whatever the rest of the literal reads as. */
  lemma {:induction false} EscapeCharRoundTrip(c: char, x: string)
    ensures ParseString(EscapeChar(c) + x) == Prepend(c, ParseString(x))
  {
    var e := EscapeChar(c);
    var s := e + x;
    var k := c as int;
    assert s[|e|..] == x;
    if |e| == 1 {
      assert s[0] == c && s[1..] == x;
    } else if k < 0x20 && k != 0x08 && k != 0x0C && k != 0x0A && k != 0x0D && k != 0x09 {
      assert s[..6] == e;
      assert HexOf(s[4]) == k / 16 && HexOf(s[5]) == k % 16;
      assert Unescape(s) == Some((c, 6));
    } else {
      assert s[..2] == e;
      assert Unescape(s) == Some((c, 2));
    }
  }

  lemma {:induction false} EscapeRoundTrip(str: string, rest: string)
    ensures ParseString(Escape(str) + ['"'] + rest) == Some((str, rest))
  {
    if str == [] {
      assert Escape(str) + ['"'] + rest == ['"'] + rest;
    } else {
      var x := Escape(str[1..]) + ['"'] + rest;
      assert Escape(str) + ['"'] + rest == EscapeChar(str[0]) + x;
      EscapeCharRoundTrip(str[0], x);
      EscapeRoundTrip(str[1..], rest);
      assert [str[0]] + str[1..] == str;
    }
  }

  lemma {:induction false} QuoteRoundTrip(str: string, rest: string)
    ensures ParseValue(Quote(str) + rest) == Some((Str(str), rest))
  {
    var s := Quote(str) + rest;
    assert s[1..] == Escape(str) + ['"'] + rest;
    EscapeRoundTrip(str, rest);
  }

  lemma {:induction false} ObjectOpens(s: string)
    requires |s| > 0 && s[0] == '{'
    ensures ParseValue(s) == ParseObject(s[1..])
  {
  }

  lemma {:induction false} ScalarRoundTrip(v: Value, rest: string)
    requires !v.Obj? && Delimits(rest)
    ensures ParseValue(Stringify(v) + rest) == Some((v, rest))
  {
    var s := Stringify(v) + rest;
    match v
    case Null => assert s[..4] == "null" && s[4..] == rest;
    case Bool(b) =>
      if b { assert s[..4] == "true" && s[4..] == rest; }
      else { assert s[..5] == "false" && s[5..] == rest; }
    case Num(n) =>
      IntRoundTrip(n, rest);
      assert s[0] == '-' || IsDigit(s[0]);
    case Str(str) => QuoteRoundTrip(str, rest);
  }

  lemma {:induction false} ValueRoundTrip(v: Value, rest: string)
    requires Delimits(rest)
    ensures ParseValue(Stringify(v) + rest) == Some((v, rest))
    decreases v, 1
  {
    if v.Obj? {
      var ms := v.members;
      var body := StringifyMembers(ms);
      var s := Stringify(v) + rest;
      ObjectText(body, rest);
      assert s == ['{'] + (body + "}" + rest);
      Skip(['{'], body + "}" + rest);
      ObjectOpens(s);
      if ms.Empty? {
        assert s[1..] == "}" + rest;
      } else {
        MembersRoundTrip(ms, rest);
        MembersStartWithQuote(ms, "}" + rest);
      }
    } else {
      ScalarRoundTrip(v, rest);
    }
  }

  lemma {:induction false} ObjectText(body: string, rest: string)
    ensures "{" + body + "}" + rest == ['{'] + (body + "}" + rest)
  {
  }

  lemma {:induction false} MembersStartWithQuote(ms: Members, x: string)
    requires ms.Member?
    ensures |StringifyMembers(ms) + x| > 0 && (StringifyMembers(ms) + x)[0] == '"'
  {
  }

  /** One step of ParseMembers, for a member whose key and value have been read. */
  lemma {:induction false} MembersStep(s: string, key: string, afterKey: string, v: Value, afterValue: string)
    requires |s| > 0 && s[0] == '"'
    requires ParseString(s[1..]) == Some((key, afterKey))
    requires |afterKey| > 0 && afterKey[0] == ':'
    requires ParseValue(afterKey[1..]) == Some((v, afterValue))
    requires |afterValue| > 0
    ensures afterValue[0] == '}' ==> ParseMembers(s) == Some((Member(key, v, Empty), afterValue[1..]))
    ensures afterValue[0] == ',' ==>
              ParseMembers(s) == (match ParseMembers(afterValue[1..])
                                  case Some((tail, rest)) => Some((Member(key, v, tail), rest))
                                  case None => None)
  {
  }

  /** Dropping a known prefix. */
  lemma {:induction false} Skip(p: string, x: string)
    ensures (p + x)[|p|..] == x
    ensures |p| > 0 ==> (p + x)[0] == p[0]
  {
  }

  /** What follows a member's value in written text: the closing brace, or
      a comma, the remaining members and the closing brace. */
  function AfterMember(tail: Members, rest: string): string {
    TailText(tail) + "}" + rest
  }

  lemma {:induction false} Regroup(e: string, vt: string, tt: string, rest: string)
    ensures ['"'] + e + ['"'] + ":" + vt + tt + "}" + rest ==
            ['"'] + (e + ['"'] + (":" + (vt + (tt + "}" + rest))))
  {
  }

  /** The written text of a non-empty member list, closed, split at its
      first member. */
  lemma {:induction false} MembersText(ms: Members, rest: string)
    requires ms.Member?
    ensures StringifyMembers(ms) + "}" + rest ==
            ['"'] + (Escape(ms.key) + ['"'] + (":" + (Stringify(ms.value) + AfterMember(ms.tail, rest))))
  {
    var e, vt, tt := Escape(ms.key), Stringify(ms.value), TailText(ms.tail);
    assert StringifyMembers(ms) == ['"'] + e + ['"'] + ":" + vt + tt;
    Regroup(e, vt, tt, rest);
  }

  lemma {:induction false} MembersRoundTrip(ms: Members, rest: string)
    requires ms.Member?
    ensures ParseMembers(StringifyMembers(ms) + "}" + rest) == Some((ms, rest))
    decreases ms, 0
  {
    var k, v, tail := ms.key, ms.value, ms.tail;
    var after := AfterMember(tail, rest);
    var afterKey := ":" + (Stringify(v) + after);
    var s := StringifyMembers(ms) + "}" + rest;
    MembersText(ms, rest);
    Skip(['"'], Escape(k) + ['"'] + afterKey);
    EscapeRoundTrip(k, afterKey);
    Skip(":", Stringify(v) + after);
    if tail.Member? {
      CommaText(StringifyMembers(tail), rest);
      ValueRoundTrip(v, after);
      MembersRoundTrip(tail, rest);
      MembersStep(s, k, afterKey, v, after);
    } else {
      Skip("}", rest);
      ValueRoundTrip(v, after);
      MembersStep(s, k, afterKey, v, after);
    }
  }

  lemma {:induction false} CommaText(body: string, rest: string)
    ensures ("," + body + "}" + rest)[0] == ','
    ensures ("," + body + "}" + rest)[1..] == body + "}" + rest
  {
    assert "," + body + "}" + rest == [','] + (body + "}" + rest);
  }

  /** JSON.parse(JSON.stringify(v)) gives back v. */
  lemma {:induction false} StringifyRoundTrip(v: Value)
    ensures Parse(Stringify(v)) == Some(v)
  {
    ValueRoundTrip(v, []);
    assert Stringify(v) + [] == Stringify(v);
  }
}
