/**
 * The JSON text that Go's encoding/json `Marshal` writes for the request records of the client.
 *
 * Every request body of the client is a flat Go struct of strings and booleans, at most one
 * []string and at most one pointer to another such struct. Marshalling one is two steps:
 * reflection turns the struct into an ordered JSON object, dropping the `omitempty` fields that
 * hold an empty value (`Kept` below); the encoder then writes that object as text, with keys
 * in field order, no white space, and strings escaped as section 7 of RFC 8259 allows plus Go's
 * HTML escaping (`Encode`). A reference reader (`Decode`) of the subset of RFC 8259 the encoder
 * writes (no white space, no numbers) is the partner the encoder is proved against:
 * `Decode(Encode(v)) == Some(v)` for every value.
 */
module Json {
  import opened Wrappers

  /** The JSON values the request records produce. */
  datatype Json =
    | JNull                        // a nil pointer or a nil slice
    | JBool(b: bool)
    | JString(s: string)
    | JStrings(items: seq<string>) // a non-nil []string
    | JObject(members: seq<Member>)

  /** One key/value pair of an object, in the order it is written. */
  datatype Member = Member(key: string, value: Json)

  /** A field of a Go struct as its json tag describes it: key, value, and whether `omitempty` is set. */
  datatype Field = Field(key: string, value: Json, omitEmpty: bool)

  /** Go's notion of an empty value for the kinds used here: false, "", nil, and a slice of length 0. */
  predicate IsEmptyValue(v: Json) {
    v == JNull || v == JBool(false) || v == JString("") || v == JStrings([])
  }

  /** True when Marshal drops the field. */
  predicate Omitted(f: Field) {
    f.omitEmpty && IsEmptyValue(f.value)
  }

  /** The member one field contributes: none when it is omitted. */
  function Emitted(f: Field): seq<Member> {
    if Omitted(f) then [] else [Member(f.key, f.value)]
  }

  /** The members that reflection emits for the given fields, in field order. */
  function Kept(fields: seq<Field>): (ms: seq<Member>)
    ensures |ms| <= |fields|
  {
    if fields == [] then [] else Emitted(fields[0]) + Kept(fields[1..])
  }

  /** Kept, one field at a time, for every suffix of the fields (used to evaluate it on a
      struct literal). */
  lemma KeptUnrolled(fields: seq<Field>)
    ensures fields[0..] == fields
    ensures forall k | 0 <= k < |fields| :: Kept(fields[k..]) == Emitted(fields[k]) + Kept(fields[k + 1..])
  {
    forall k | 0 <= k < |fields|
      ensures Kept(fields[k..]) == Emitted(fields[k]) + Kept(fields[k + 1..])
    {
      assert fields[k..][1..] == fields[k + 1..];
    }
  }

  /** Reflection works field by field: the members of consecutive fields are the members of
      the first run followed by those of the second, so the order of the fields is kept, and a
      single field contributes exactly its own member or none. */
  lemma {:induction false} KeptAppend(a: seq<Field>, b: seq<Field>)
    ensures Kept(a + b) == Kept(a) + Kept(b)
    ensures |a| == 1 ==> Kept(a) == Emitted(a[0])
  {
    if a != [] {
      assert (a + b)[1..] == a[1..] + b;
      KeptAppend(a[1..], b);
    } else {
      assert a + b == b;
    }
  }

  /** A member is emitted exactly when some field carries it and is not omitted. */
  lemma {:induction false} KeptMembers(fields: seq<Field>, m: Member)
    ensures m in Kept(fields) <==>
            exists i :: 0 <= i < |fields| && !Omitted(fields[i]) && m == Member(fields[i].key, fields[i].value)
  {
    if fields != [] {
      KeptMembers(fields[1..], m);
      if m in Kept(fields[1..]) {
        var i :| 0 <= i < |fields[1..]| && !Omitted(fields[1..][i]) && m == Member(fields[1..][i].key, fields[1..][i].value);
        assert fields[i + 1] == fields[1..][i];
      }
      if exists i :: 0 <= i < |fields| && !Omitted(fields[i]) && m == Member(fields[i].key, fields[i].value) {
        var i :| 0 <= i < |fields| && !Omitted(fields[i]) && m == Member(fields[i].key, fields[i].value);
        if i > 0 {
          assert fields[1..][i - 1] == fields[i];
        }
      }
    }
  }

  // ---------------------------------------------------------------------------------------------
  // Strings

  /** The lower-case hexadecimal digit Go writes for 0 <= d < 16. */
  function HexDigit(d: int): (c: char)
    requires 0 <= d < 16
  {
    if d < 10 then ('0' as int + d) as char else ('a' as int + d - 10) as char
  }

  /** Four hexadecimal digits, most significant first. */
  function Hex4(n: int): (h: string)
    requires 0 <= n < 0x10000
    ensures |h| == 4
  {
    [HexDigit(n / 0x1000), HexDigit(n / 0x100 % 16), HexDigit(n / 0x10 % 16), HexDigit(n % 16)]
  }

  /** Characters that Go writes as a \u escape: controls without a short form, the HTML
      characters <, > and &, and the line and paragraph separators U+2028 and U+2029. */
  predicate NeedsUnicodeEscape(c: char) {
    || (c as int < 0x20 && c != '\n' && c != '\r' && c != '\t')
    || c == '<' || c == '>' || c == '&'
    || c as int == 0x2028 || c as int == 0x2029
  }

  /** What the encoder writes for one character of a string. */
  function EscapeChar(c: char): (e: string)
    ensures e != []
    ensures e[0] != '"'
    ensures |e| == 1 <==> Plain(c)
  {
    if c == '"' then "\\\""
    else if c == '\\' then "\\\\"
    else if c == '\n' then "\\n"
    else if c == '\r' then "\\r"
    else if c == '\t' then "\\t"
    else if NeedsUnicodeEscape(c) then "\\u" + Hex4(c as int)
    else [c]
  }

  /** The escaped text of a string: never shorter, and exactly as long only when no character
      needed escaping. */
  function Escape(s: string): (e: string)
    ensures |e| >= |s|
    ensures |e| == |s| <==> AllPlain(s)
  {
    if s == [] then [] else EscapeChar(s[0]) + Escape(s[1..])
  }

  /** A string literal: the escaped characters between double quotes. */
  function Quote(s: string): string {
    "\"" + Escape(s) + "\""
  }

  // ---------------------------------------------------------------------------------------------
  // Values

  /** The text of a value: an object between braces, a string between quotes, never empty. */
  function Encode(v: Json): (t: string)
    ensures v.JObject? ==> |t| >= 2 && t[0] == '{' && t[|t| - 1] == '}'
    decreases v
  {
    match v
    case JNull => "null"
    case JBool(b) => if b then "true" else "false"
    case JString(s) => Quote(s)
    case JStrings(items) => "[" + EncodeItems(items) + "]"
    case JObject(ms) => "{" + EncodeMembers(ms) + "}"
  }

  /** The elements of a string array, separated by commas. */
  function EncodeItems(items: seq<string>): string {
    if items == [] then "" else Quote(items[0]) + EncodeItemsTail(items[1..])
  }

  /** The elements after the first, each preceded by a comma. */
  function EncodeItemsTail(items: seq<string>): string {
    if items == [] then "" else "," + Quote(items[0]) + EncodeItemsTail(items[1..])
  }

  function EncodeMember(m: Member): string
    decreases m
  {
    Quote(m.key) + ":" + Encode(m.value)
  }

  /** The members of an object, separated by commas. */
  function EncodeMembers(ms: seq<Member>): string
    decreases ms
  {
    if ms == [] then "" else EncodeMember(ms[0]) + EncodeMembersTail(ms[1..])
  }

  /** The members after the first, each preceded by a comma. */
  function EncodeMembersTail(ms: seq<Member>): string
    decreases ms
  {
    if ms == [] then "" else "," + EncodeMember(ms[0]) + EncodeMembersTail(ms[1..])
  }

  // ---------------------------------------------------------------------------------------------
  // HTML safety: what the encoder writes never holds a raw <, >, &, control character or
  // line separator, so a body can be embedded in HTML or a script unchanged.

  predicate Unsafe(c: char) {
    c == '<' || c == '>' || c == '&' || c as int < 0x20 || c as int == 0x2028 || c as int == 0x2029
  }

  predicate HtmlSafe(t: string) {
    forall i | 0 <= i < |t| :: !Unsafe(t[i])
  }

  lemma SafeConcat(a: string, b: string)
    requires HtmlSafe(a) && HtmlSafe(b)
    ensures HtmlSafe(a + b)
  {
    forall i | 0 <= i < |a + b| ensures !Unsafe((a + b)[i]) {
      if i >= |a| {
        assert (a + b)[i] == b[i - |a|];
      }
    }
  }

  lemma {:induction false} EscapeSafe(s: string)
    ensures HtmlSafe(Escape(s))
  {
    if s != [] {
      var c := s[0];
      if NeedsUnicodeEscape(c) {
        var h := Hex4(c as int);
        assert forall i | 0 <= i < 4 :: '0' <= h[i] <= '9' || 'a' <= h[i] <= 'f';
      }
      EscapeSafe(s[1..]);
      SafeConcat(EscapeChar(c), Escape(s[1..]));
    }
  }

  lemma QuoteSafe(s: string)
    ensures HtmlSafe(Quote(s))
  {
    EscapeSafe(s);
    SafeConcat("\"", Escape(s));
    SafeConcat("\"" + Escape(s), "\"");
  }

  /** The three HTML characters are written as \u escapes with lower-case hexadecimal digits. */
  lemma HtmlCharactersEscaped()
    ensures EscapeChar('<') == "\\u003c"
    ensures EscapeChar('>') == "\\u003e"
    ensures EscapeChar('&') == "\\u0026"
  {
  }

  /** Every text the encoder writes is HTML safe. */
  lemma {:induction false} EncodeSafe(v: Json)
    ensures HtmlSafe(Encode(v))
    decreases v
  {
    match v
    case JNull =>
    case JBool(b) =>
    case JString(s) => QuoteSafe(s);
    case JStrings(items) =>
      ItemsSafe(items);
      SafeConcat("[", EncodeItems(items));
      SafeConcat("[" + EncodeItems(items), "]");
    case JObject(ms) =>
      MembersSafe(ms);
      SafeConcat("{", EncodeMembers(ms));
      SafeConcat("{" + EncodeMembers(ms), "}");
  }

  lemma {:induction false} ItemsSafe(items: seq<string>)
    ensures HtmlSafe(EncodeItems(items)) && HtmlSafe(EncodeItemsTail(items))
  {
    if items != [] {
      QuoteSafe(items[0]);
      ItemsSafe(items[1..]);
      SafeConcat(Quote(items[0]), EncodeItemsTail(items[1..]));
      SafeConcat(",", Quote(items[0]));
      SafeConcat("," + Quote(items[0]), EncodeItemsTail(items[1..]));
    }
  }

  lemma {:induction false} MemberSafe(m: Member)
    ensures HtmlSafe(EncodeMember(m))
    decreases m
  {
    QuoteSafe(m.key);
    EncodeSafe(m.value);
    SafeConcat(Quote(m.key), ":");
    SafeConcat(Quote(m.key) + ":", Encode(m.value));
  }

  lemma {:induction false} MembersSafe(ms: seq<Member>)
    ensures HtmlSafe(EncodeMembers(ms)) && HtmlSafe(EncodeMembersTail(ms))
    decreases ms
  {
    if ms != [] {
      MemberSafe(ms[0]);
      MembersSafe(ms[1..]);
      SafeConcat(EncodeMember(ms[0]), EncodeMembersTail(ms[1..]));
      SafeConcat(",", EncodeMember(ms[0]));
      SafeConcat("," + EncodeMember(ms[0]), EncodeMembersTail(ms[1..]));
    }
  }

  // ---------------------------------------------------------------------------------------------
  // Reference reader for the subset of RFC 8259 text the encoder writes: null, true, false,
  // strings (with the RFC 8259 escapes other than surrogate pairs), arrays of strings and
  // objects, without white space or numbers. Each reader takes the text that follows what has
  // been consumed and returns the value read with the text that remains.

  predicate IsHex(c: char) {
    ('0' <= c <= '9') || ('a' <= c <= 'f') || ('A' <= c <= 'F')
  }

  function HexValue(c: char): (d: int)
    requires IsHex(c)
    ensures 0 <= d < 16
  {
    if '0' <= c <= '9' then c as int - '0' as int
    else if 'a' <= c <= 'f' then c as int - 'a' as int + 10
    else c as int - 'A' as int + 10
  }

  predicate AllHex(t: string) {
    forall i | 0 <= i < |t| :: IsHex(t[i])
  }

  function HexValue4(t: string): (n: int)
    requires |t| == 4 && AllHex(t)
    ensures 0 <= n < 0x10000
  {
    HexValue(t[0]) * 0x1000 + HexValue(t[1]) * 0x100 + HexValue(t[2]) * 0x10 + HexValue(t[3])
  }

  /** The character an escape sequence stands for; t follows the backslash. Surrogate code
      points, which stand for no character on their own, are rejected. */
  function ReadEscape(t: string): (r: Option<(char, string)>)
    ensures r.Some? ==> |r.value.1| < |t|
  {
    if |t| == 0 then None
    else if t[0] == '"' || t[0] == '\\' || t[0] == '/' then Some((t[0], t[1..]))
    else if t[0] == 'b' then Some((8 as char, t[1..]))
    else if t[0] == 'f' then Some((12 as char, t[1..]))
    else if t[0] == 'n' then Some(('\n', t[1..]))
    else if t[0] == 'r' then Some(('\r', t[1..]))
    else if t[0] == 't' then Some(('\t', t[1..]))
    else if t[0] == 'u' && |t| >= 5 && AllHex(t[1..5]) then
      var n := HexValue4(t[1..5]);
      if 0xD800 <= n < 0xE000 then None else Some((n as char, t[5..]))
    else None
  }

  /** The characters of a string literal up to its closing quote; t follows the opening quote. */
  function ReadString(t: string): (r: Option<(string, string)>)
    ensures r.Some? ==> |r.value.1| < |t|
    decreases |t|
  {
    if |t| == 0 then None
    else if t[0] == '"' then Some(([], t[1..]))
    else if t[0] == '\\' then
      match ReadEscape(t[1..])
      case None => None
      case Some((c, rest)) =>
        match ReadString(rest)
        case None => None
        case Some((s, rest')) => Some(([c] + s, rest'))
    else if t[0] as int < 0x20 then None
    else
      match ReadString(t[1..])
      case None => None
      case Some((s, rest)) => Some(([t[0]] + s, rest))
  }

  /** The elements of a string array; t follows the opening bracket. */
  function ReadItems(t: string): (r: Option<(seq<string>, string)>)
    ensures r.Some? ==> |r.value.1| < |t|
  {
    if |t| == 0 then None
    else if t[0] == ']' then Some(([], t[1..]))
    else if t[0] == '"' then
      match ReadString(t[1..])
      case None => None
      case Some((s, rest)) =>
        match ReadItemsTail(rest)
        case None => None
        case Some((xs, rest')) => Some(([s] + xs, rest'))
    else None
  }

  /** The elements after the first and the closing bracket. */
  function ReadItemsTail(t: string): (r: Option<(seq<string>, string)>)
    ensures r.Some? ==> |r.value.1| < |t|
    decreases |t|
  {
    if |t| == 0 then None
    else if t[0] == ']' then Some(([], t[1..]))
    else if t[0] == ',' && |t| > 1 && t[1] == '"' then
      match ReadString(t[2..])
      case None => None
      case Some((s, rest)) =>
        match ReadItemsTail(rest)
        case None => None
        case Some((xs, rest')) => Some(([s] + xs, rest'))
    else None
  }

  function ReadValue(t: string): (r: Option<(Json, string)>)
    ensures r.Some? ==> |r.value.1| < |t|
    decreases |t|, 2
  {
    if |t| == 0 then None
    else if t[0] == '"' then
      match ReadString(t[1..])
      case None => None
      case Some((s, rest)) => Some((JString(s), rest))
    else if t[0] == '[' then
      match ReadItems(t[1..])
      case None => None
      case Some((items, rest)) => Some((JStrings(items), rest))
    else if t[0] == '{' then
      match ReadMembers(t[1..])
      case None => None
      case Some((ms, rest)) => Some((JObject(ms), rest))
    else if |t| >= 4 && t[..4] == "null" then Some((JNull, t[4..]))
    else if |t| >= 4 && t[..4] == "true" then Some((JBool(true), t[4..]))
    else if |t| >= 5 && t[..5] == "false" then Some((JBool(false), t[5..]))
    else None
  }

  /** One `"key":value` pair. */
  function ReadMember(t: string): (r: Option<(Member, string)>)
    ensures r.Some? ==> |r.value.1| < |t|
    decreases |t|, 0
  {
    if |t| == 0 || t[0] != '"' then None
    else
      match ReadString(t[1..])
      case None => None
      case Some((key, rest)) =>
        if |rest| == 0 || rest[0] != ':' then None
        else
          match ReadValue(rest[1..])
          case None => None
          case Some((v, rest')) => Some((Member(key, v), rest'))
  }

  /** The members of an object; t follows the opening brace. */
  function ReadMembers(t: string): (r: Option<(seq<Member>, string)>)
    ensures r.Some? ==> |r.value.1| < |t|
    decreases |t|, 1
  {
    if |t| == 0 then None
    else if t[0] == '}' then Some(([], t[1..]))
    else
      match ReadMember(t)
      case None => None
      case Some((m, rest)) =>
        match ReadMembersTail(rest)
        case None => None
        case Some((ms, rest')) => Some(([m] + ms, rest'))
  }

  /** The members after the first and the closing brace. */
  function ReadMembersTail(t: string): (r: Option<(seq<Member>, string)>)
    ensures r.Some? ==> |r.value.1| < |t|
    decreases |t|, 1
  {
    if |t| == 0 then None
    else if t[0] == '}' then Some(([], t[1..]))
    else if t[0] == ',' then
      match ReadMember(t[1..])
      case None => None
      case Some((m, rest)) =>
        match ReadMembersTail(rest)
        case None => None
        case Some((ms, rest')) => Some(([m] + ms, rest'))
    else None
  }

  /** A whole JSON text holding one value and nothing after it. */
  function Decode(t: string): Option<Json> {
    match ReadValue(t)
    case None => None
    case Some((v, rest)) => if rest == [] then Some(v) else None
  }

  // ---------------------------------------------------------------------------------------------
  // Round trip

  lemma HexDigitValue(d: int)
    requires 0 <= d < 16
    ensures IsHex(HexDigit(d)) && HexValue(HexDigit(d)) == d
  {
  }

  /** The four digits of Hex4 weigh back to n. */
  lemma Hex4Weights(n: int)
    requires 0 <= n < 0x10000
    ensures (n / 0x1000) * 0x1000 + (n / 0x100 % 16) * 0x100 + (n / 0x10 % 16) * 0x10 + n % 16 == n
  {
    var a, b, c := n / 0x1000, n / 0x100, n / 0x10;
    assert b == a * 16 + b % 16;
    assert c == b * 16 + c % 16;
    assert n == c * 16 + n % 16;
  }

  lemma Hex4RoundTrip(n: int)
    requires 0 <= n < 0x10000
    ensures AllHex(Hex4(n)) && HexValue4(Hex4(n)) == n
  {
    var h := Hex4(n);
    HexDigitValue(n / 0x1000);
    HexDigitValue(n / 0x100 % 16);
    HexDigitValue(n / 0x10 % 16);
    HexDigitValue(n % 16);
    assert HexValue4(h) == (n / 0x1000) * 0x1000 + (n / 0x100 % 16) * 0x100 + (n / 0x10 % 16) * 0x10 + n % 16;
    Hex4Weights(n);
  }

  /** An escape sequence the encoder writes reads back as the character it escapes. */
  lemma ReadEscapeChar(c: char, rest: string)
    requires EscapeChar(c)[0] == '\\'
    ensures ReadEscape(EscapeChar(c)[1..] + rest) == Some((c, rest))
  {
    var t := EscapeChar(c)[1..] + rest;
    if c == '"' || c == '\\' || c == '\n' || c == '\r' || c == '\t' {
      assert t[1..] == rest;
    } else {
      assert NeedsUnicodeEscape(c);
      var h := Hex4(c as int);
      assert EscapeChar(c)[1..] == "u" + h;
      assert t[1..5] == h;
      assert t[5..] == rest;
      Hex4RoundTrip(c as int);
    }
  }

  /** Reading past one raw character. */
  lemma ReadStringPlain(c: char, tail: string, s: string, rest: string)
    requires c != '"' && c != '\\' && c as int >= 0x20
    requires ReadString(tail) == Some((s, rest))
    ensures ReadString([c] + tail) == Some(([c] + s, rest))
  {
    assert ([c] + tail)[1..] == tail;
  }

  /** Reading past one escape sequence the encoder writes. */
  lemma ReadStringEscapeStep(c: char, tail: string, s: string, rest: string)
    requires EscapeChar(c)[0] == '\\'
    requires ReadString(tail) == Some((s, rest))
    ensures ReadString(EscapeChar(c) + tail) == Some(([c] + s, rest))
  {
    var t := EscapeChar(c) + tail;
    assert t[1..] == EscapeChar(c)[1..] + tail;
    ReadEscapeChar(c, tail);
  }

  /** A string literal the encoder writes reads back as the string, whatever follows it. */
  lemma {:induction false} ReadStringEscaped(s: string, rest: string)
    ensures ReadString(Escape(s) + "\"" + rest) == Some((s, rest))
  {
    if s == [] {
      assert Escape(s) + "\"" + rest == "\"" + rest;
      assert ("\"" + rest)[1..] == rest;
    } else {
      var c, e := s[0], EscapeChar(s[0]);
      var tail := Escape(s[1..]) + "\"" + rest;
      assert Escape(s) + "\"" + rest == e + tail;
      ReadStringEscaped(s[1..], rest);
      assert [c] + s[1..] == s;
      if e == [c] {
        ReadStringPlain(c, tail, s[1..], rest);
      } else {
        ReadStringEscapeStep(c, tail, s[1..], rest);
      }
    }
  }

  lemma ReadQuoted(s: string, rest: string)
    ensures Quote(s) + rest == "\"" + (Escape(s) + "\"" + rest)
    ensures ReadString((Quote(s) + rest)[1..]) == Some((s, rest))
  {
    assert (Quote(s) + rest)[1..] == Escape(s) + "\"" + rest;
    ReadStringEscaped(s, rest);
  }

  lemma ReadItemsTailStep(x: string, tail: string, xs: seq<string>, rest: string)
    requires ReadItemsTail(tail) == Some((xs, rest))
    ensures ReadItemsTail("," + Quote(x) + tail) == Some(([x] + xs, rest))
  {
    var t := "," + Quote(x) + tail;
    assert t[1] == '"';
    assert t[2..] == Escape(x) + "\"" + tail;
    ReadStringEscaped(x, tail);
  }

  lemma {:induction false} ReadItemsTailEncoded(items: seq<string>, rest: string)
    ensures ReadItemsTail(EncodeItemsTail(items) + "]" + rest) == Some((items, rest))
  {
    if items == [] {
      assert EncodeItemsTail(items) + "]" + rest == "]" + rest;
      assert ("]" + rest)[1..] == rest;
    } else {
      var tail := EncodeItemsTail(items[1..]) + "]" + rest;
      assert EncodeItemsTail(items) + "]" + rest == "," + Quote(items[0]) + tail;
      ReadItemsTailEncoded(items[1..], rest);
      ReadItemsTailStep(items[0], tail, items[1..], rest);
      assert [items[0]] + items[1..] == items;
    }
  }

  lemma ReadItemsEncoded(items: seq<string>, rest: string)
    ensures ReadItems(EncodeItems(items) + "]" + rest) == Some((items, rest))
  {
    var t := EncodeItems(items) + "]" + rest;
    if items == [] {
      assert t[1..] == rest;
    } else {
      var tail := EncodeItemsTail(items[1..]) + "]" + rest;
      assert t == Quote(items[0]) + tail;
      ReadQuoted(items[0], tail);
      ReadItemsTailEncoded(items[1..], rest);
      assert [items[0]] + items[1..] == items;
    }
  }

  /** The literals null, true and false read back as themselves, whatever text follows. */
  lemma ReadLiteralEncoded(v: Json, rest: string)
    requires v.JNull? || v.JBool?
    ensures ReadValue(Encode(v) + rest) == Some((v, rest))
  {
    var t := Encode(v) + rest;
    if v.JNull? {
      assert t[..4] == "null" && t[4..] == rest;
    } else if v.b {
      assert t[..4] == "true" && t[4..] == rest;
    } else {
      assert t[..4] != "null" && t[..4] != "true";
      assert t[..5] == "false" && t[5..] == rest;
    }
  }

  /** Any value the encoder writes reads back as that value, whatever text follows it. */
  lemma {:induction false} ReadValueEncoded(v: Json, rest: string)
    ensures ReadValue(Encode(v) + rest) == Some((v, rest))
    decreases v
  {
    match v
    case JNull =>
      ReadLiteralEncoded(v, rest);
    case JBool(b) =>
      ReadLiteralEncoded(v, rest);
    case JString(s) =>
      ReadQuoted(s, rest);
    case JStrings(items) =>
      ReadItemsEncoded(items, rest);
      ReadArrayStep(items, rest);
    case JObject(ms) =>
      ReadMembersEncoded(ms, rest);
      ReadObjectStep(ms, rest);
  }

  lemma ReadArrayStep(items: seq<string>, rest: string)
    requires ReadItems(EncodeItems(items) + "]" + rest) == Some((items, rest))
    ensures ReadValue(Encode(JStrings(items)) + rest) == Some((JStrings(items), rest))
  {
    var body := EncodeItems(items) + "]" + rest;
    var t := "[" + body;
    assert Encode(JStrings(items)) + rest == t;
    assert t[0] == '[' && t[1..] == body;
  }

  lemma ReadObjectStep(ms: seq<Member>, rest: string)
    requires ReadMembers(EncodeMembers(ms) + "}" + rest) == Some((ms, rest))
    ensures ReadValue(Encode(JObject(ms)) + rest) == Some((JObject(ms), rest))
  {
    var body := EncodeMembers(ms) + "}" + rest;
    var t := "{" + body;
    assert Encode(JObject(ms)) + rest == t;
    assert t[0] == '{' && t[1..] == body;
  }

  lemma ReadMemberStep(key: string, tail: string, v: Json, rest: string)
    requires ReadValue(tail) == Some((v, rest))
    ensures ReadMember(Quote(key) + ":" + tail) == Some((Member(key, v), rest))
  {
    var t := Quote(key) + ":" + tail;
    assert t[1..] == Escape(key) + "\"" + (":" + tail);
    ReadStringEscaped(key, ":" + tail);
    assert (":" + tail)[1..] == tail;
  }

  lemma {:induction false} ReadMemberEncoded(m: Member, rest: string)
    ensures ReadMember(EncodeMember(m) + rest) == Some((m, rest))
    decreases m
  {
    assert EncodeMember(m) + rest == Quote(m.key) + ":" + (Encode(m.value) + rest);
    ReadValueEncoded(m.value, rest);
    ReadMemberStep(m.key, Encode(m.value) + rest, m.value, rest);
  }

  lemma {:induction false} ReadMembersEncoded(ms: seq<Member>, rest: string)
    ensures ReadMembers(EncodeMembers(ms) + "}" + rest) == Some((ms, rest))
    decreases ms
  {
    var t := EncodeMembers(ms) + "}" + rest;
    if ms == [] {
      assert t[1..] == rest;
    } else {
      var tail := EncodeMembersTail(ms[1..]) + "}" + rest;
      assert t == EncodeMember(ms[0]) + tail;
      assert t[0] == '"';
      ReadMemberEncoded(ms[0], tail);
      ReadMembersTailEncoded(ms[1..], rest);
      assert [ms[0]] + ms[1..] == ms;
    }
  }

  lemma {:induction false} ReadMembersTailEncoded(ms: seq<Member>, rest: string)
    ensures ReadMembersTail(EncodeMembersTail(ms) + "}" + rest) == Some((ms, rest))
    decreases ms
  {
    var t := EncodeMembersTail(ms) + "}" + rest;
    if ms == [] {
      assert t[1..] == rest;
    } else {
      var tail := EncodeMembersTail(ms[1..]) + "}" + rest;
      assert t == "," + (EncodeMember(ms[0]) + tail);
      assert t[1..] == EncodeMember(ms[0]) + tail;
      ReadMemberEncoded(ms[0], tail);
      ReadMembersTailEncoded(ms[1..], rest);
      assert [ms[0]] + ms[1..] == ms;
    }
  }

  // ---------------------------------------------------------------------------------------------
  // Text that needs no escaping

  /** Characters the encoder writes as they are. */
  predicate Plain(c: char) {
    c != '"' && c != '\\' && c as int >= 0x20 && !NeedsUnicodeEscape(c)
  }

  predicate AllPlain(s: string) {
    forall i | 0 <= i < |s| :: Plain(s[i])
  }

  /** A string of such characters is written unchanged. */
  lemma {:induction false} EscapePlain(s: string)
    requires AllPlain(s)
    ensures Escape(s) == s
  {
    if s != [] {
      EscapePlain(s[1..]);
      assert [s[0]] + s[1..] == s;
    }
  }

  /** A member whose key and string value need no escaping is written as `"key":"value"`. */
  lemma PlainStringMember(key: string, s: string)
    requires AllPlain(key) && AllPlain(s)
    ensures EncodeMember(Member(key, JString(s))) == "\"" + key + "\":\"" + s + "\""
  {
    EscapePlain(key);
    EscapePlain(s);
  }

  /** The escapes Go writes for the characters that need one: the short forms for the quote, the
      backslash, newline, carriage return and tab, and a \u escape with lower-case hexadecimal
      digits for the other control characters and the two line separators. */
  lemma ShortAndUnicodeEscapes()
    ensures EscapeChar('"') == "\\\"" && EscapeChar('\\') == "\\\\"
    ensures EscapeChar('\n') == "\\n" && EscapeChar('\r') == "\\r" && EscapeChar('\t') == "\\t"
    ensures EscapeChar(0 as char) == "\\u0000" && EscapeChar(0x1f as char) == "\\u001f"
    ensures EscapeChar(0x2028 as char) == "\\u2028" && EscapeChar(0x2029 as char) == "\\u2029"
    ensures forall c: char | c as int < 0x20 && c != '\n' && c != '\r' && c != '\t' ::
      EscapeChar(c) == "\\u00" + [HexDigit(c as int / 16), HexDigit(c as int % 16)]
  {
    forall c: char | c as int < 0x20 && c != '\n' && c != '\r' && c != '\t'
      ensures EscapeChar(c) == "\\u00" + [HexDigit(c as int / 16), HexDigit(c as int % 16)]
    {
      assert c as int / 0x1000 == 0 && c as int / 0x100 % 16 == 0;
      assert c as int / 0x10 % 16 == c as int / 16;
    }
  }

  // ---------------------------------------------------------------------------------------------
  // Where a member appears in the text

  /** `w` appears in `t` as a contiguous piece. */
  ghost predicate Occurs(w: string, t: string) {
    exists before: string, after: string :: t == before + w + after
  }

  lemma OccursInContext(w: string, a: string, t: string, b: string)
    requires Occurs(w, t)
    ensures Occurs(w, a + t + b)
  {
    var before: string, after: string :| t == before + w + after;
    assert a + t + b == (a + before) + w + (after + b);
  }

  lemma OccursItself(w: string)
    ensures Occurs(w, w)
  {
    assert w == [] + w + [];
  }

  /** Each member after the first is written, whole, in the text of the tail. */
  lemma {:induction false} MemberWrittenInTail(ms: seq<Member>, k: int)
    requires 0 <= k < |ms|
    ensures Occurs(EncodeMember(ms[k]), EncodeMembersTail(ms))
    decreases ms
  {
    var w := EncodeMember(ms[k]);
    if k == 0 {
      OccursItself(w);
      OccursInContext(w, ",", w, EncodeMembersTail(ms[1..]));
    } else {
      MemberWrittenInTail(ms[1..], k - 1);
      assert ms[1..][k - 1] == ms[k];
      OccursInContext(w, "," + EncodeMember(ms[0]), EncodeMembersTail(ms[1..]), "");
      assert "," + EncodeMember(ms[0]) + EncodeMembersTail(ms[1..]) + "" == EncodeMembersTail(ms);
    }
  }

  /** Every member of an object is written, whole, in the text of the object. */
  lemma MemberWritten(ms: seq<Member>, k: int)
    requires 0 <= k < |ms|
    ensures Occurs(EncodeMember(ms[k]), Encode(JObject(ms)))
  {
    var w := EncodeMember(ms[k]);
    if k == 0 {
      OccursItself(w);
      OccursInContext(w, "{", w, EncodeMembersTail(ms[1..]) + "}");
      assert "{" + w + (EncodeMembersTail(ms[1..]) + "}") == Encode(JObject(ms));
    } else {
      MemberWrittenInTail(ms[1..], k - 1);
      assert ms[1..][k - 1] == ms[k];
      OccursInContext(w, "{" + EncodeMember(ms[0]), EncodeMembersTail(ms[1..]), "}");
    }
  }

  /** An object of two members is written as both members between braces, separated by a comma. */
  lemma EncodeTwoMembers(first: Member, second: Member)
    ensures Encode(JObject([first, second])) == "{" + EncodeMember(first) + "," + EncodeMember(second) + "}"
  {
    assert [first, second][1..] == [second];
    assert [second][1..] == [];
    assert EncodeMembersTail([second]) == "," + EncodeMember(second) + "";
    assert EncodeMembers([first, second]) == EncodeMember(first) + ("," + EncodeMember(second));
  }

  /** Round trip: the reference reader recovers every value the encoder writes. */
  lemma DecodeEncode(v: Json)
    ensures Decode(Encode(v)) == Some(v)
  {
    ReadValueEncoded(v, []);
    assert Encode(v) + [] == Encode(v);
  }

  /** So the encoder never writes the same text for two different values. */
  lemma EncodeInjective(v: Json, w: Json)
    requires Encode(v) == Encode(w)
    ensures v == w
  {
    DecodeEncode(v);
    DecodeEncode(w);
  }
}
