/** The pagination cursor of the record listing: the scan's resume key written with
    `JSON.stringify`, encoded as UTF-8 bytes and then as base64 text
    (services/api/index.js, `listRecords`). */
module Cursor {
  import opened Outcomes
  import Utf8
  import Base64

  /** A resume key (`LastEvaluatedKey`): attribute names with string values, in the order
      the object holds them. */
  type Key = seq<(string, string)>

  // ---------------------------------------------------------------------------
  // JSON.stringify of a key
  // ---------------------------------------------------------------------------

  function HexDigit(v: nat): char
    requires v < 16
  {
    if v < 10 then ('0' as int + v) as char else ('a' as int + (v - 10)) as char
  }

  function HexValue(c: char): (r: Option<nat>)
    ensures r.Some? ==> r.value < 16
  {
    if '0' <= c <= '9' then Some(c as int - '0' as int)
    else if 'a' <= c <= 'f' then Some(c as int - 'a' as int + 10)
    else if 'A' <= c <= 'F' then Some(c as int - 'A' as int + 10)
    else None
  }

  /** How `JSON.stringify` writes one character inside a string literal: the quote and the
      backslash escaped, control characters as short escapes or `\u00xx`, the rest as is. */
  function EscapeChar(c: char): string {
    if c == '"' then "\\\""
    else if c == '\\' then "\\\\"
    else if c == '\U{8}' then "\\b"
    else if c == '\U{C}' then "\\f"
    else if c == '\n' then "\\n"
    else if c == '\r' then "\\r"
    else if c == '\t' then "\\t"
    else if (c as int) < 0x20 then "\\u00" + [HexDigit(c as int / 16), HexDigit(c as int % 16)]
    else [c]
  }

  function Escape(s: string): string {
    if s == [] then "" else EscapeChar(s[0]) + Escape(s[1..])
  }

  function Member(attribute: (string, string)): string {
    "\"" + Escape(attribute.0) + "\":\"" + Escape(attribute.1) + "\""
  }

  function Members(k: Key): string {
    if k == [] then ""
    else if |k| == 1 then Member(k[0])
    else Member(k[0]) + "," + Members(k[1..])
  }

  /** `JSON.stringify(key)`. */
  function Serialize(k: Key): string {
    "{" + Members(k) + "}"
  }

  // ---------------------------------------------------------------------------
  // JSON.parse of a key
  // ---------------------------------------------------------------------------

  predicate IsJsonSpace(c: char) {
    c == ' ' || c == '\t' || c == '\n' || c == '\r'
  }

  function SkipWs(s: string): (r: string)
    ensures |r| <= |s|
    ensures r == [] || !IsJsonSpace(r[0])
  {
    if s != [] && IsJsonSpace(s[0]) then SkipWs(s[1..]) else s
  }

  /** The character an escape sequence stands for (`s` follows the backslash) and how many
      characters of `s` it takes. Escapes of surrogate halves are not supported. */
  function Unescape(s: string): (r: Option<(char, nat)>)
    requires s != []
    ensures r.Some? ==> 1 <= r.value.1 <= |s|
  {
    match s[0]
    case '"' => Some(('"', 1))
    case '\\' => Some(('\\', 1))
    case '/' => Some(('/', 1))
    case 'b' => Some(('\U{8}', 1))
    case 'f' => Some(('\U{C}', 1))
    case 'n' => Some(('\n', 1))
    case 'r' => Some(('\r', 1))
    case 't' => Some(('\t', 1))
    case 'u' =>
      if |s| < 5 then None
      else
        var h0, h1, h2, h3 := HexValue(s[1]), HexValue(s[2]), HexValue(s[3]), HexValue(s[4]);
        if h0.None? || h1.None? || h2.None? || h3.None? then None
        else
          var v := ((h0.value * 16 + h1.value) * 16 + h2.value) * 16 + h3.value;
          if 0xD800 <= v < 0xE000 then None else Some((v as char, 5))
    case _ => None
  }

  function Prepend(c: char, r: Option<(string, string)>): Option<(string, string)> {
    match r
    case None => None
    case Some((t, rest)) => Some(([c] + t, rest))
  }

  /** The contents of a string literal whose opening quote has been read, and the text
      after its closing quote. */
  function ParseString(s: string): (r: Option<(string, string)>)
    ensures r.Some? ==> |r.value.1| < |s|
    decreases |s|
  {
    if s == [] then None
    else if s[0] == '"' then Some(("", s[1..]))
    else if s[0] == '\\' then
      if |s| < 2 then None
      else
        match Unescape(s[1..])
        case None => None
        case Some((c, n)) => Prepend(c, ParseString(s[1 + n..]))
    else if (s[0] as int) < 0x20 then None
    else Prepend(s[0], ParseString(s[1..]))
  }

  /** The members of an object from the opening quote of a member name on, and the text after
      the closing brace. */
  function ParseMembers(s: string): (r: Option<(Key, string)>)
    ensures r.Some? ==> |r.value.1| < |s|
    decreases |s|, 1
  {
    if s == [] || s[0] != '"' then None
    else
      match ParseString(s[1..])
      case None => None
      case Some((name, r1)) =>
        var r2 := SkipWs(r1);
        if r2 == [] || r2[0] != ':' then None
        else
          var r3 := SkipWs(r2[1..]);
          if r3 == [] || r3[0] != '"' then None
          else
            match ParseString(r3[1..])
            case None => None
            case Some((value, r4)) => AfterMember((name, value), SkipWs(r4))
  }

  /** What follows a member: the closing brace, or a comma and further members. */
  function AfterMember(attribute: (string, string), s: string): (r: Option<(Key, string)>)
    ensures r.Some? ==> |r.value.1| < |s|
    decreases |s|, 0
  {
    if s == [] then None
    else if s[0] == '}' then Some(([attribute], s[1..]))
    else if s[0] == ',' then
      match ParseMembers(SkipWs(s[1..]))
      case None => None
      case Some((more, rest)) => Some(([attribute] + more, rest))
    else None
  }

  /** `JSON.parse(text)` when the text is an object whose values are all strings; `None`
      for anything else. */
  function ParseKey(text: string): Option<Key> {
    var t := SkipWs(text);
    if t == [] || t[0] != '{' then None
    else
      var u := SkipWs(t[1..]);
      if u != [] && u[0] == '}' then
        if SkipWs(u[1..]) == [] then Some([]) else None
      else
        match ParseMembers(u)
        case None => None
        case Some((k, rest)) => if SkipWs(rest) == [] then Some(k) else None
  }

  // ---------------------------------------------------------------------------
  // Round trip of the JSON layer
  // ---------------------------------------------------------------------------

  lemma ParseEscapedChar(c: char, x: string)
    ensures ParseString(EscapeChar(c) + x) == Prepend(c, ParseString(x))
  {
    if c == '"' || c == '\\' || c == '\U{8}' || c == '\U{C}' || c == '\n' || c == '\r' || c == '\t' {
      ParseShortEscape(c, x);
    } else if (c as int) < 0x20 {
      ParseUnicodeEscape(c, x);
    } else {
      assert (EscapeChar(c) + x)[1..] == x;
    }
  }

  lemma ParseShortEscape(c: char, x: string)
    requires c == '"' || c == '\\' || c == '\U{8}' || c == '\U{C}' || c == '\n' || c == '\r' || c == '\t'
    ensures ParseString(EscapeChar(c) + x) == Prepend(c, ParseString(x))
  {
    var s := EscapeChar(c) + x;
    assert |EscapeChar(c)| == 2 && s[0] == '\\';
    assert s[1 + 1..] == x;
  }

  lemma ParseUnicodeEscape(c: char, x: string)
    requires !(c == '"' || c == '\\' || c == '\U{8}' || c == '\U{C}' || c == '\n' || c == '\r' || c == '\t')
    requires (c as int) < 0x20
    ensures ParseString(EscapeChar(c) + x) == Prepend(c, ParseString(x))
  {
    var n := c as int;
    var s := EscapeChar(c) + x;
    assert EscapeChar(c) == "\\u00" + [HexDigit(n / 16), HexDigit(n % 16)];
    assert HexValue(HexDigit(n / 16)) == Some(n / 16);
    assert HexValue(HexDigit(n % 16)) == Some(n % 16);
    assert s[1..][..5] == "u00" + [HexDigit(n / 16), HexDigit(n % 16)];
    assert s[1 + 5..] == x;
  }

  /** A string literal written by `JSON.stringify` parses back to the string. */
  lemma {:induction false} ParseEscaped(t: string, rest: string)
    ensures ParseString(Escape(t) + "\"" + rest) == Some((t, rest))
  {
    if t == [] {
      assert (Escape(t) + "\"" + rest)[1..] == rest;
    } else {
      var x := Escape(t[1..]) + "\"" + rest;
      assert Escape(t) + "\"" + rest == EscapeChar(t[0]) + x;
      ParseEscapedChar(t[0], x);
      ParseEscaped(t[1..], rest);
      assert [t[0]] + t[1..] == t;
    }
  }

  /** One member unfolded: the name, the colon, the value, then what follows. */
  lemma ParseMembersUnfold(s: string, name: string, r1: string, value: string, r4: string)
    requires s != [] && s[0] == '"' && ParseString(s[1..]) == Some((name, r1))
    requires r1 != [] && r1[0] == ':' && SkipWs(r1) == r1
    requires |r1| > 1 && r1[1] == '"' && SkipWs(r1[1..]) == r1[1..]
    requires ParseString(r1[2..]) == Some((value, r4))
    ensures ParseMembers(s) == AfterMember((name, value), SkipWs(r4))
  {
    assert r1[1..][1..] == r1[2..];
  }

  /** The text of a member followed by `x`, seen as the parser reads it. */
  lemma MemberText(attribute: (string, string), x: string)
    ensures var s := Member(attribute) + x;
      var r1 := ":\"" + Escape(attribute.1) + "\"" + x;
      s != [] && s[0] == '"' && s[1..] == Escape(attribute.0) + "\"" + r1 &&
      r1 != [] && r1[0] == ':' && SkipWs(r1) == r1 &&
      |r1| > 1 && r1[1] == '"' && SkipWs(r1[1..]) == r1[1..] &&
      r1[2..] == Escape(attribute.1) + "\"" + x
  {
    MemberPieces(Escape(attribute.0), Escape(attribute.1), x);
  }

  lemma MemberPieces(name: string, value: string, x: string)
    ensures var r1 := ":\"" + value + "\"" + x;
      ("\"" + name + "\":\"" + value + "\"") + x == "\"" + (name + "\"" + r1) &&
      r1[0] == ':' && r1[1] == '"' && r1[1..][0] == '"' && r1[2..] == value + "\"" + x
  {
    var r1 := ":\"" + value + "\"" + x;
    assert r1 == ":\"" + (value + "\"" + x);
  }

  lemma ParseMemberThen(attribute: (string, string), x: string)
    ensures ParseMembers(Member(attribute) + x) == AfterMember(attribute, SkipWs(x))
  {
    var r1 := ":\"" + Escape(attribute.1) + "\"" + x;
    MemberText(attribute, x);
    ParseEscaped(attribute.0, r1);
    ParseEscaped(attribute.1, x);
    ParseMembersUnfold(Member(attribute) + x, attribute.0, r1, attribute.1, x);
  }

  lemma Regroup(m: string, tail: string, rest: string)
    ensures m + "," + tail + "}" + rest == m + ("," + (tail + "}" + rest))
  {
  }

  lemma MembersText(k: Key, rest: string)
    requires k != []
    ensures |k| == 1 ==> Members(k) + "}" + rest == Member(k[0]) + ("}" + rest)
    ensures |k| > 1 ==> Members(k) + "}" + rest == Member(k[0]) + ("," + (Members(k[1..]) + "}" + rest))
  {
    if |k| > 1 {
      Regroup(Member(k[0]), Members(k[1..]), rest);
    }
  }

  lemma AfterLastMember(attribute: (string, string), rest: string)
    ensures AfterMember(attribute, SkipWs("}" + rest)) == Some(([attribute], rest))
  {
    assert ("}" + rest)[1..] == rest;
  }

  lemma AfterInnerMember(attribute: (string, string), k: Key, rest: string)
    requires k != [] && ParseMembers(Members(k) + "}" + rest) == Some((k, rest))
    ensures AfterMember(attribute, SkipWs("," + (Members(k) + "}" + rest))) == Some(([attribute] + k, rest))
  {
    var tail := Members(k) + "}" + rest;
    assert ("," + tail)[1..] == tail;
    assert tail[0] == '"';
  }

  lemma {:induction false} ParseMembersOf(k: Key, rest: string)
    requires k != []
    ensures ParseMembers(Members(k) + "}" + rest) == Some((k, rest))
  {
    MembersText(k, rest);
    if |k| == 1 {
      ParseMemberThen(k[0], "}" + rest);
      AfterLastMember(k[0], rest);
      assert k == [k[0]];
    } else {
      ParseMembersOf(k[1..], rest);
      ParseMemberThen(k[0], "," + (Members(k[1..]) + "}" + rest));
      AfterInnerMember(k[0], k[1..], rest);
      assert [k[0]] + k[1..] == k;
    }
  }

  lemma SkipNoWs(s: string)
    requires s == [] || !IsJsonSpace(s[0])
    ensures SkipWs(s) == s
  {
  }

  lemma ParseKeyEmpty()
    ensures ParseKey("{}") == Some([])
  {
    SkipNoWs("{}");
    assert "{}"[1..] == "}";
    SkipNoWs("}");
    assert "}"[1..] == [];
  }

  lemma ParseKeyOf(text: string, u: string, k: Key)
    requires text == "{" + u && u != [] && u[0] == '"' && ParseMembers(u) == Some((k, ""))
    ensures ParseKey(text) == Some(k)
  {
    SkipNoWs(text);
    assert text[1..] == u;
    SkipNoWs(u);
  }

  /** `JSON.parse(JSON.stringify(k))` gives back `k`. */
  lemma ParseSerialized(k: Key)
    ensures ParseKey(Serialize(k)) == Some(k)
  {
    var u := Members(k) + "}";
    assert Serialize(k) == "{" + u;
    if k == [] {
      assert u == "}";
      ParseKeyEmpty();
    } else {
      assert u[0] == '"' by { MembersText(k, ""); }
      ParseMembersOf(k, "");
      assert u + "" == u;
      ParseKeyOf("{" + u, u, k);
    }
  }

  // ---------------------------------------------------------------------------
  // The cursor
  // ---------------------------------------------------------------------------

  /** `Buffer.from(JSON.stringify(key)).toString('base64')`. */
  function EncodeCursor(k: Key): string {
    Base64.Encode(Utf8.Encode(Serialize(k)))
  }

  /** `JSON.parse(Buffer.from(cursor, 'base64').toString())`, `None` when any step fails. */
  function DecodeCursor(cursor: string): Option<Key> {
    match Base64.Decode(cursor)
    case None => None
    case Some(bytes) =>
      match Utf8.Decode(bytes)
      case None => None
      case Some(text) => ParseKey(text)
  }

  /** An emitted cursor is never the empty string, so it always counts as given. */
  lemma CursorNonEmpty(k: Key)
    ensures EncodeCursor(k) != ""
  {
    var text := Serialize(k);
    assert text[0] == '{';
    assert Utf8.Encode(text) != [];
  }

  /** Decoding an emitted cursor yields the resume key it was made from. */
  lemma CursorRoundTrip(k: Key)
    ensures DecodeCursor(EncodeCursor(k)) == Some(k)
  {
    var text := Serialize(k);
    Utf8.DecodeEncode(text);
    Base64.DecodeEncode(Utf8.Encode(text));
    ParseSerialized(k);
  }
}
