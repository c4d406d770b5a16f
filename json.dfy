/**
 * JSON values as the routes and pages see them after `res.json()`, with the
 * JavaScript operators they apply to them: optional member access `?.`,
 * nullish coalescing `??` and truthiness. Numbers are integers here.
 */
module Json {
  import opened Wrappers
  import opened Text

  datatype Json =
    | JNull
    | JBool(b: bool)
    | JNum(n: int)
    | JStr(s: string)
    | JArr(elems: seq<Json>)
    | JObj(fields: map<string, Json>)

  /** `value?.key`: the member of an object, and `undefined` (None) for a missing member or a non-object. */
  function Member(value: Json, key: string): (r: Option<Json>)
    ensures r.Some? <==> value.JObj? && key in value.fields
    ensures r.Some? ==> r.value == value.fields[key]
  {
    if value.JObj? && key in value.fields then Some(value.fields[key]) else None
  }

  /** Optional chaining continued from a value that may itself be `undefined`. */
  function MemberOf(value: Option<Json>, key: string): (r: Option<Json>)
    ensures value.None? ==> r.None?
  {
    if value.None? then None else Member(value.value, key)
  }

  /** JavaScript truthiness: `null`, `false`, `0` and `""` are falsy; arrays and objects are truthy. */
  predicate Truthy(v: Json) {
    match v
    case JNull => false
    case JBool(b) => b
    case JNum(n) => n != 0
    case JStr(s) => s != ""
    case JArr(_) => true
    case JObj(_) => true
  }

  /** Truthiness of a value that may be `undefined`, which is falsy. */
  predicate IsTruthy(v: Option<Json>) {
    v.Some? && Truthy(v.value)
  }

  /** `v ?? default`: only `undefined` and `null` are replaced. */
  function Coalesce(v: Option<Json>, default: Json): (r: Json)
    ensures v.Some? && v.value != JNull ==> r == v.value
    ensures v.None? || v.value == JNull ==> r == default
  {
    if v.Some? && v.value != JNull then v.value else default
  }

  /** The object literal `{ message: m }`. */
  function MessageObject(m: Json): Json {
    JObj(map["message" := m])
  }

  /** `data?.message ?? default`. */
  function MessageOr(data: Json, default: string): (r: Json)
    ensures Member(data, "message").None? ==> r == JStr(default)
    ensures Member(data, "message") == Some(JNull) ==> r == JStr(default)
    ensures Member(data, "message").Some? && Member(data, "message").value != JNull ==>
              r == Member(data, "message").value
  {
    Coalesce(Member(data, "message"), JStr(default))
  }

  /** The lowercase hexadecimal digit JSON.stringify writes for `d`. */
  function HexDigit(d: nat): (c: char)
    requires d < 16
  {
    if d < 10 then (('0' as int) + d) as char else (('a' as int) + d - 10) as char
  }

  /** The value of a hexadecimal digit (either case), or None. */
  function HexValue(c: char): (r: Option<nat>)
    ensures r.Some? ==> r.value < 16
  {
    var n := c as int;
    if '0' as int <= n <= '9' as int then Some(n - '0' as int)
    else if 'a' as int <= n <= 'f' as int then Some(n - 'a' as int + 10)
    else if 'A' as int <= n <= 'F' as int then Some(n - 'A' as int + 10)
    else None
  }

  lemma HexRoundTrip(d: nat)
    requires d < 16
    ensures HexValue(HexDigit(d)) == Some(d)
  {
  }

  /** How JSON.stringify writes one character inside a string literal. */
  function EscapeChar(c: char): (r: string)
    ensures |r| >= 1
  {
    var n := c as int;
    if n == 0x22 then ['\\', '"']
    else if n == 0x5C then ['\\', '\\']
    else if n == 0x08 then ['\\', 'b']
    else if n == 0x0C then ['\\', 'f']
    else if n == 0x0A then ['\\', 'n']
    else if n == 0x0D then ['\\', 'r']
    else if n == 0x09 then ['\\', 't']
    else if n < 0x20 then ['\\', 'u', '0', '0', HexDigit(n / 16), HexDigit(n % 16)]
    else [c]
  }

  /** The body of the string literal JSON.stringify writes for `s`. */
  function Escape(s: string): string {
    if s == [] then [] else EscapeChar(s[0]) + Escape(s[1..])
  }

  /** `JSON.stringify(s)` for a string. */
  function Quote(s: string): (r: string)
    ensures |r| >= 2 && r[0] == '"' && r[|r| - 1] == '"'
  {
    "\"" + Escape(s) + "\""
  }

  /** Puts `c` in front of the text read so far, keeping what follows the literal. */
  function Cons(c: char, rest: Option<(string, string)>): Option<(string, string)> {
    if rest.None? then None else Some(([c] + rest.value.0, rest.value.1))
  }

  /** Four hexadecimal digits at the start of `s`: the UTF-16 code unit a `\u` escape names. */
  function HexQuad(s: string): (r: Option<nat>)
    requires |s| >= 4
    ensures r.Some? ==> r.value < 0x10000
  {
    var h0, h1, h2, h3 := HexValue(s[0]), HexValue(s[1]), HexValue(s[2]), HexValue(s[3]);
    if h0.None? || h1.None? || h2.None? || h3.None? then None
    else Some(((h0.value * 16 + h1.value) * 16 + h2.value) * 16 + h3.value)
  }

  /** The character a UTF-16 surrogate pair encodes; the two halves can be read back from it. */
  function SurrogatePair(high: nat, low: nat): (c: char)
    requires 0xD800 <= high <= 0xDBFF && 0xDC00 <= low <= 0xDFFF
    ensures 0x10000 <= c as int
    ensures (c as int - 0x10000) / 0x400 == high - 0xD800 && (c as int - 0x10000) % 0x400 == low - 0xDC00
  {
    ((high - 0xD800) * 0x400 + (low - 0xDC00) + 0x10000) as char
  }

  /**
   * Reads the body of a JSON string literal up to its closing quote (the inverse
   * of `Escape`): the decoded text and what follows the quote. Applies the escapes
   * of RFC 8259 section 7, joining a `\u` escape of a high surrogate and one of a
   * low surrogate into the character they encode, and refuses an unescaped control
   * character, a surrogate escape without its partner, and a literal that never
   * closes.
   */
  function ReadString(s: string): (r: Option<(string, string)>)
    ensures r.Some? ==> |r.value.1| < |s|
    decreases |s|
  {
    if s == [] then None
    else if s[0] == '"' then Some(([], s[1..]))
    else if s[0] == '\\' then
      if |s| < 2 then None
      else if s[1] == '"' then Cons('"', ReadString(s[2..]))
      else if s[1] == '\\' then Cons('\\', ReadString(s[2..]))
      else if s[1] == '/' then Cons('/', ReadString(s[2..]))
      else if s[1] == 'b' then Cons(8 as char, ReadString(s[2..]))
      else if s[1] == 'f' then Cons(12 as char, ReadString(s[2..]))
      else if s[1] == 'n' then Cons(10 as char, ReadString(s[2..]))
      else if s[1] == 'r' then Cons(13 as char, ReadString(s[2..]))
      else if s[1] == 't' then Cons(9 as char, ReadString(s[2..]))
      else if s[1] == 'u' && |s| >= 6 then
        var v := HexQuad(s[2..]);
        if v.None? || 0xDC00 <= v.value <= 0xDFFF then None
        else if v.value < 0xD800 || 0xE000 <= v.value then Cons(v.value as char, ReadString(s[6..]))
        else
          var w := if |s| >= 12 && s[6] == '\\' && s[7] == 'u' then HexQuad(s[8..]) else None;
          if w.None? || !(0xDC00 <= w.value <= 0xDFFF) then None
          else Cons(SurrogatePair(v.value, w.value), ReadString(s[12..]))
      else None
    else if (s[0] as int) < 0x20 then None
    else Cons(s[0], ReadString(s[1..]))
  }

  /** A control character without a short escape is written as `\u00XX` and read back from it. */
  lemma ReadUnicodeEscape(c: char, rest: string)
    requires (c as int) < 0x20 && |EscapeChar(c)| == 6
    ensures ReadString(EscapeChar(c) + rest) == Cons(c, ReadString(rest))
  {
    var n := c as int;
    var s := EscapeChar(c) + rest;
    HexRoundTrip(n / 16);
    HexRoundTrip(n % 16);
    assert s[0] == '\\' && s[1] == 'u';
    assert s[2] == '0' && s[3] == '0' && s[4] == HexDigit(n / 16) && s[5] == HexDigit(n % 16);
    assert HexQuad(s[2..]) == Some(n);
    assert s[6..] == rest;
    assert HexValue('0') == Some(0);
  }

  /** A character with a two-character escape (`\"`, `\\`, `\b`, `\f`, `\n`, `\r`, `\t`) reads back from it. */
  lemma ReadShortEscape(c: char, rest: string)
    requires |EscapeChar(c)| == 2
    ensures ReadString(EscapeChar(c) + rest) == Cons(c, ReadString(rest))
  {
    var s := EscapeChar(c) + rest;
    assert s[0] == '\\';
    assert s[2..] == rest;
  }

  /** Reading back one escaped character. */
  lemma ReadEscapedChar(c: char, rest: string)
    ensures ReadString(EscapeChar(c) + rest) == Cons(c, ReadString(rest))
  {
    var e := EscapeChar(c);
    if |e| == 6 {
      ReadUnicodeEscape(c, rest);
    } else if |e| == 2 {
      ReadShortEscape(c, rest);
    } else {
      assert (e + rest)[1..] == rest;
    }
  }

  /** JSON string escaping loses nothing: the escaped text reads back as the original string, up to the closing quote. */
  lemma {:induction false} ReadEscaped(s: string, rest: string)
    ensures ReadString(Escape(s) + "\"" + rest) == Some((s, rest))
  {
    if s == [] {
      assert Escape(s) + "\"" + rest == "\"" + rest;
      assert ("\"" + rest)[1..] == rest;
    } else {
      ReadEscaped(s[1..], rest);
      ReadEscapedChar(s[0], Escape(s[1..]) + "\"" + rest);
      assert Escape(s) + "\"" + rest == EscapeChar(s[0]) + (Escape(s[1..]) + "\"" + rest);
      assert [s[0]] + s[1..] == s;
    }
  }

  /** Reads a whole JSON string literal at the start of `s`: its text and what follows. */
  function ReadQuoted(s: string): (r: Option<(string, string)>)
    ensures r.Some? ==> |r.value.1| < |s|
  {
    if s != [] && s[0] == '"' then ReadString(s[1..]) else None
  }

  /** `JSON.parse` inverts `JSON.stringify` on strings, whatever follows the literal. */
  lemma ReadQuotedRoundTrip(s: string, rest: string)
    ensures ReadQuoted(Quote(s) + rest) == Some((s, rest))
  {
    assert (Quote(s) + rest)[1..] == Escape(s) + "\"" + rest;
    ReadEscaped(s, rest);
  }

  /** Distinct strings are written as distinct JSON string literals. */
  lemma QuoteInjective(a: string, b: string)
    requires Quote(a) == Quote(b)
    ensures a == b
  {
    ReadQuotedRoundTrip(a, "");
    ReadQuotedRoundTrip(b, "");
    assert Quote(a) + "" == Quote(a);
    assert Quote(b) + "" == Quote(b);
  }

  /** The whitespace JSON allows around its tokens (RFC 8259 section 2). */
  predicate IsJsonSpace(c: char) {
    c == ' ' || c == '\t' || c == '\n' || c == '\r'
  }

  /** `s` after its leading whitespace. */
  function SkipSpace(s: string): (r: string)
    ensures |r| <= |s| && r == s[|s| - |r|..]
    ensures forall i | 0 <= i < |s| - |r| :: IsJsonSpace(s[i])
    ensures r == [] || !IsJsonSpace(r[0])
  {
    if s != [] && IsJsonSpace(s[0]) then SkipSpace(s[1..]) else s
  }

  lemma SkipNoSpace(s: string)
    requires s != [] && !IsJsonSpace(s[0])
    ensures SkipSpace(s) == s
  {
  }

  /** `s` after its leading decimal digits. */
  function SkipDigits(s: string): (r: string)
    ensures |r| <= |s| && r == s[|s| - |r|..]
    ensures forall i | 0 <= i < |s| - |r| :: IsDigit(s[i])
    ensures r == [] || !IsDigit(r[0])
  {
    if s != [] && IsDigit(s[0]) then SkipDigits(s[1..]) else s
  }

  /** What follows an optional fraction: a `.` and at least one digit. */
  function SkipFraction(s: string): (r: Option<string>)
    ensures r.Some? ==> |r.value| <= |s|
  {
    if s != [] && s[0] == '.' then
      if |s| >= 2 && IsDigit(s[1]) then Some(SkipDigits(s[2..])) else None
    else Some(s)
  }

  /** What follows an optional exponent: `e` or `E`, an optional sign and at least one digit. */
  function SkipExponent(s: string): (r: Option<string>)
    ensures r.Some? ==> |r.value| <= |s|
  {
    if s != [] && (s[0] == 'e' || s[0] == 'E') then
      var e := if |s| >= 2 && (s[1] == '+' || s[1] == '-') then s[2..] else s[1..];
      if e != [] && IsDigit(e[0]) then Some(SkipDigits(e[1..])) else None
    else Some(s)
  }

  /**
   * What follows a number at the start of `s` (RFC 8259 section 6): an optional
   * minus, `0` or digits not starting with `0`, then the optional fraction and
   * exponent.
   */
  function SkipNumber(s: string): (r: Option<string>)
    ensures r.Some? ==> |r.value| < |s|
  {
    var a := if s != [] && s[0] == '-' then s[1..] else s;
    if a == [] || !IsDigit(a[0]) then None
    else
      var f := SkipFraction(if a[0] == '0' then a[1..] else SkipDigits(a[1..]));
      if f.None? then None else SkipExponent(f.value)
  }

  /** What follows the JSON value at the start of `s`, or None when no value starts there. */
  function SkipValue(s: string): (r: Option<string>)
    ensures r.Some? ==> |r.value| < |s|
    decreases |s|, 0
  {
    if s == [] then None
    else if s[0] == '{' then
      var t := SkipSpace(s[1..]);
      if t != [] && t[0] == '}' then Some(t[1..]) else SkipMembers(t)
    else if s[0] == '[' then
      var t := SkipSpace(s[1..]);
      if t != [] && t[0] == ']' then Some(t[1..]) else SkipElements(t)
    else if s[0] == '"' then
      var q := ReadQuoted(s);
      if q.None? then None else Some(q.value.1)
    else if StartsWith(s, "true") then Some(s[4..])
    else if StartsWith(s, "false") then Some(s[5..])
    else if StartsWith(s, "null") then Some(s[4..])
    else SkipNumber(s)
  }

  /** The elements of an array, from the first one up to and including the closing `]`. */
  function SkipElements(s: string): (r: Option<string>)
    ensures r.Some? ==> |r.value| < |s|
    decreases |s|, 1
  {
    var v := SkipValue(s);
    if v.None? then None
    else
      var t := SkipSpace(v.value);
      if t != [] && t[0] == ',' then SkipElements(SkipSpace(t[1..]))
      else if t != [] && t[0] == ']' then Some(t[1..])
      else None
  }

  /** The members of an object, from the first name up to and including the closing `}`. */
  function SkipMembers(s: string): (r: Option<string>)
    ensures r.Some? ==> |r.value| < |s|
    decreases |s|, 2
  {
    var k := ReadQuoted(s);
    if k.None? then None else SkipMemberValue(k.value.1)
  }

  /** A member after its name: the colon, the value, then the next member or the closing `}`. */
  function SkipMemberValue(s: string): (r: Option<string>)
    ensures r.Some? ==> |r.value| < |s|
    decreases |s|, 1
  {
    var t := SkipSpace(s);
    if t == [] || t[0] != ':' then None
    else
      var v := SkipValue(SkipSpace(t[1..]));
      if v.None? then None
      else
        var u := SkipSpace(v.value);
        if u == [] then None else NextMember(u)
  }

  /** What follows a member's value: after a comma the next member, after `}` the end of the object. */
  function NextMember(s: string): (r: Option<string>)
    requires s != []
    ensures r.Some? ==> |r.value| < |s|
    decreases |s|, 0
  {
    if s[0] == ',' then SkipMembers(SkipSpace(s[1..]))
    else if s[0] == '}' then Some(s[1..])
    else None
  }

  /** Whether `JSON.parse(s)` succeeds: exactly one value, with only whitespace around it. */
  predicate IsJsonText(s: string) {
    var v := SkipValue(SkipSpace(s));
    v.Some? && SkipSpace(v.value) == []
  }

  /** A string literal is a value on its own, whatever follows it. */
  lemma SkipQuoted(s: string, rest: string)
    ensures SkipValue(Quote(s) + rest) == Some(rest)
  {
    ReadQuotedRoundTrip(s, rest);
  }

  /** An object whose first member starts at once is read from that member on. */
  lemma SkipObject(s: string)
    requires |s| >= 2 && s[0] == '{' && s[1] == '"'
    ensures SkipSpace(s) == s && SkipValue(s) == SkipMembers(s[1..])
  {
    SkipNoSpace(s);
    SkipNoSpace(s[1..]);
  }

  /** What JSON.stringify writes for a string is JSON text. */
  lemma QuotedIsJsonText(s: string)
    ensures IsJsonText(Quote(s))
  {
    SkipQuoted(s, "");
    assert Quote(s) + "" == Quote(s);
  }

  /** A character that stands for itself inside a string literal. */
  predicate IsPlain(c: char) {
    c as int >= 0x20 && c != '"' && c != '\\'
  }

  /** Plain characters followed by a quote read back as themselves. */
  lemma {:induction false} ReadPlain(name: string, rest: string)
    requires forall i | 0 <= i < |name| :: IsPlain(name[i])
    ensures ReadString(name + "\"" + rest) == Some((name, rest))
    decreases |name|
  {
    if name == [] {
      assert name + "\"" + rest == "\"" + rest;
      assert ("\"" + rest)[1..] == rest;
    } else {
      ReadPlain(name[1..], rest);
      assert (name + "\"" + rest)[1..] == name[1..] + "\"" + rest;
      assert [name[0]] + name[1..] == name;
    }
  }

  /**
   * A member key as JSON.stringify writes it behind the `{` or `,` in front of
   * it: a quoted name of plain characters and a colon.
   */
  predicate IsMemberKey(key: string) {
    |key| >= 4 && key[1] == '"' && key[|key| - 2..] == "\":"
    && forall i | 2 <= i < |key| - 2 :: IsPlain(key[i])
  }

  lemma SkipNamedMember(s: string, name: string, after: string)
    requires ReadQuoted(s) == Some((name, after))
    ensures SkipMembers(s) == SkipMemberValue(after)
  {
  }

  /** Reading past a member whose name has been read, from its colon: `value` is the value and what follows it. */
  lemma SkipMemberAfterName(value: string, rest: string)
    requires SkipValue(value) == Some(rest)
    requires value != [] && !IsJsonSpace(value[0])
    requires rest != [] && (rest[0] == ',' || rest[0] == '}')
    ensures SkipMemberValue([':'] + value) == NextMember(rest)
  {
    var after := [':'] + value;
    SkipNoSpace(after);
    assert after[1..] == value;
    SkipNoSpace(value);
    SkipNoSpace(rest);
  }

  /** The quoted name in a member key reads back as the name, leaving the colon and the value. */
  lemma ReadKeyName(key: string, value: string)
    requires IsMemberKey(key)
    ensures ReadQuoted((key + value)[1..]) == Some((key[2..|key| - 2], [':'] + value))
  {
    var name := key[2..|key| - 2];
    var after := [':'] + value;
    assert key == key[..2] + name + key[|key| - 2..];
    assert (key + value)[1..] == "\"" + (name + "\"" + after);
    ReadPlain(name, after);
  }

  /**
   * A member written behind its separator, `key` then a value that ends where
   * `rest` starts, is read past: what follows depends only on `rest`.
   */
  lemma SkipKeyedMember(key: string, value: string, rest: string)
    requires IsMemberKey(key)
    requires SkipValue(value) == Some(rest)
    requires value != [] && !IsJsonSpace(value[0])
    requires rest != [] && (rest[0] == ',' || rest[0] == '}')
    ensures SkipMembers((key + value)[1..]) == NextMember(rest)
  {
    ReadKeyName(key, value);
    SkipNamedMember((key + value)[1..], key[2..|key| - 2], [':'] + value);
    SkipMemberAfterName(value, rest);
  }
}
