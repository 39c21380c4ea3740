/**
 * The JSON text of the cached user profile: `setUser` stores
 * `JSON.stringify(user)` and `getUser` reads it back with `JSON.parse`
 * (frontend/src/App.js). The profile is the backend's UserResponse: id,
 * email, is_super_admin and created_at, the last sent as an ISO string.
 */
module Json {
  import opened Wrappers
  import opened Text

  datatype UserProfile = UserProfile(id: string, email: string, isSuperAdmin: bool, createdAt: string)

  // ---------------------------------------------------------------------
  // Strings.

  /** A hexadecimal digit of a `\u` escape, lower case as JSON.stringify writes it. */
  function HexDigit(d: nat): char
    requires d < 16
  {
    if d < 10 then ('0' as int + d) as char else ('a' as int + d - 10) as char
  }

  /**
   * How JSON.stringify writes one character inside a string: a quote and a
   * backslash escaped, the five control characters with a short escape,
   * every other control character as `\u00xx`, anything else as itself.
   */
  function EscapeChar(c: char): (r: string)
    ensures |r| >= 1 && forall i :: 0 <= i < |r| ==> r[i] >= ' '
  {
    if c == '"' then "\\\""
    else if c == '\\' then "\\\\"
    else if c == '\U{0008}' then "\\b"
    else if c == '\t' then "\\t"
    else if c == '\n' then "\\n"
    else if c == '\U{000C}' then "\\f"
    else if c == '\r' then "\\r"
    else if c < ' ' then "\\u00" + [HexDigit(c as int / 16), HexDigit(c as int % 16)]
    else [c]
  }

  /** `s` as JSON.stringify writes it between the quotes: at least as long, and free of raw control characters. */
  function Escape(s: string): (r: string)
    ensures |r| >= |s|
    ensures forall i :: 0 <= i < |r| ==> r[i] >= ' '
  {
    if s == [] then [] else EscapeChar(s[0]) + Escape(s[1..])
  }

  /** The character a two-character escape `\e` stands for. */
  function SimpleEscape(e: char): Option<char> {
    if e == '"' then Some('"')
    else if e == '\\' then Some('\\')
    else if e == '/' then Some('/')
    else if e == 'b' then Some('\U{0008}')
    else if e == 'f' then Some('\U{000C}')
    else if e == 'n' then Some('\n')
    else if e == 'r' then Some('\r')
    else if e == 't' then Some('\t')
    else None
  }

  /** The character of `\uXXXX`; a code in the surrogate range is refused. */
  function UnicodeEscape(h: string): Option<char>
    requires |h| == 4
  {
    var d0, d1, d2, d3 := HexValue(h[0]), HexValue(h[1]), HexValue(h[2]), HexValue(h[3]);
    if d0.None? || d1.None? || d2.None? || d3.None? then None
    else
      var code := d0.value * 4096 + d1.value * 256 + d2.value * 16 + d3.value;
      if 0xD800 <= code <= 0xDFFF then None else Some(code as char)
  }

  function Prepend(c: char, r: Option<(string, string)>): Option<(string, string)> {
    match r
    case None => None
    case Some((text, rest)) => Some(([c] + text, rest))
  }

  /**
   * Reads the inside of a JSON string up to its closing quote: the decoded
   * text and what follows the quote, or `None` where JSON.parse throws
   * (no closing quote, a bad escape, a raw control character).
   */
  function ParseChars(t: string): (r: Option<(string, string)>)
    ensures r.Some? ==> |r.value.1| < |t| && r.value.1 == t[|t| - |r.value.1|..]
    decreases |t|
  {
    if t == [] then None
    else if t[0] == '"' then Some(([], t[1..]))
    else if t[0] == '\\' then
      if |t| < 2 then None
      else if t[1] == 'u' then
        if |t| < 6 then None
        else match UnicodeEscape(t[2..6])
          case None => None
          case Some(c) => Prepend(c, ParseChars(t[6..]))
      else match SimpleEscape(t[1])
        case None => None
        case Some(c) => Prepend(c, ParseChars(t[2..]))
    else if t[0] < ' ' then None
    else Prepend(t[0], ParseChars(t[1..]))
  }

  // ---------------------------------------------------------------------
  // The profile object.

  function BoolText(b: bool): string {
    if b then "true" else "false"
  }

  /** A member `key"value"` (the key text carries its own punctuation) followed by the rest of the object. */
  function Member(key: string, value: string, rest: string): string {
    key + ("\"" + (Escape(value) + ("\"" + rest)))
  }

  /** `JSON.stringify(user)`: the members in the order of the UserResponse fields, no whitespace. */
  function Stringify(u: UserProfile): (r: string)
    ensures |r| >= 2 && r[0] == '{' && r[|r| - 1] == '}'
  {
    Member("{\"id\":", u.id,
    Member(",\"email\":", u.email,
    ",\"is_super_admin\":" + (BoolText(u.isSuperAdmin) +
    Member(",\"created_at\":", u.createdAt, "}"))))
  }

  /** Consumes a literal at the front of `s`. */
  function Expect(lit: string, s: string): (r: Option<string>)
    ensures r.Some? ==> |lit| <= |s| && s == lit + r.value
  {
    if |lit| <= |s| && s[..|lit|] == lit then Some(s[|lit|..]) else None
  }

  function ParseMember(key: string, s: string): (r: Option<(string, string)>)
    ensures r.Some? ==> |key| <= |s| && s[..|key|] == key
    ensures r.Some? ==> |r.value.1| < |s| && r.value.1 == s[|s| - |r.value.1|..]
  {
    match Expect(key, s)
    case None => None
    case Some(t) =>
      match Expect("\"", t)
      case None => None
      case Some(body) => ParseChars(body)
  }

  function ParseBool(s: string): (r: Option<(bool, string)>)
    ensures r.Some? ==> |r.value.1| < |s| && r.value.1 == s[|s| - |r.value.1|..]
  {
    match Expect("true", s)
    case Some(rest) => Some((true, rest))
    case None =>
      match Expect("false", s)
      case Some(rest) => Some((false, rest))
      case None => None
  }

  /**
   * `JSON.parse` of a stored profile, for the compact text JSON.stringify
   * writes; `None` where the text is not such a profile.
   */
  function ParseUser(s: string): (r: Option<UserProfile>)
    ensures r.Some? ==> |s| >= 2 && s[0] == '{'
  {
    match ParseMember("{\"id\":", s)
    case None => None
    case Some((id, s1)) =>
      match ParseMember(",\"email\":", s1)
      case None => None
      case Some((email, s2)) =>
        match Expect(",\"is_super_admin\":", s2)
        case None => None
        case Some(s3) =>
          match ParseBool(s3)
          case None => None
          case Some((admin, s4)) =>
            match ParseMember(",\"created_at\":", s4)
            case None => None
            case Some((createdAt, s5)) =>
              if s5 == "}" then Some(UserProfile(id, email, admin, createdAt)) else None
  }

  // ---------------------------------------------------------------------
  // Round trip.

  lemma HexRoundTrip(d: nat)
    requires d < 16
    ensures HexValue(HexDigit(d)) == Some(d)
  {
  }

  /** A control character's `\u00XY` escape is read back as that character. */
  lemma ControlEscapeRead(c: char, tail: string)
    requires c < ' ' && c != '\U{0008}' && c != '\t' && c != '\n' && c != '\U{000C}' && c != '\r'
    ensures ParseChars(EscapeChar(c) + tail) == Prepend(c, ParseChars(tail))
  {
    var hi, lo := c as int / 16, c as int % 16;
    var t := EscapeChar(c) + tail;
    assert EscapeChar(c) == "\\u00" + [HexDigit(hi), HexDigit(lo)];
    HexRoundTrip(hi);
    HexRoundTrip(lo);
    assert t[0] == '\\' && t[1] == 'u';
    assert t[2..6] == ['0', '0', HexDigit(hi), HexDigit(lo)];
    assert UnicodeEscape(t[2..6]) == Some(c);
    assert t[6..] == tail;
  }

  /** A character's escape is read back as that character, whatever follows it. */
  lemma EscapeCharRead(c: char, tail: string)
    ensures ParseChars(EscapeChar(c) + tail) == Prepend(c, ParseChars(tail))
  {
    var t := EscapeChar(c) + tail;
    if c < ' ' && c != '\U{0008}' && c != '\t' && c != '\n' && c != '\U{000C}' && c != '\r' {
      ControlEscapeRead(c, tail);
    } else if c == '"' || c == '\\' || c < ' ' {
      assert t[2..] == tail;
    } else {
      assert t[1..] == tail;
    }
  }

  /** The escaped text followed by a closing quote reads back as the text and what follows the quote. */
  lemma {:induction false} EscapeRoundTrip(s: string, tail: string)
    ensures ParseChars(Escape(s) + ("\"" + tail)) == Some((s, tail))
  {
    if s == [] {
      assert Escape(s) + ("\"" + tail) == "\"" + tail;
    } else {
      var after := Escape(s[1..]) + ("\"" + tail);
      AppendAssoc(EscapeChar(s[0]), Escape(s[1..]), "\"" + tail);
      EscapeCharRead(s[0], after);
      EscapeRoundTrip(s[1..], tail);
      assert [s[0]] + s[1..] == s;
    }
  }

  lemma AppendAssoc(a: string, b: string, c: string)
    ensures (a + b) + c == a + (b + c)
  {
  }

  lemma ExpectRead(lit: string, rest: string)
    ensures Expect(lit, lit + rest) == Some(rest)
  {
    assert (lit + rest)[..|lit|] == lit;
  }

  lemma MemberRead(key: string, value: string, rest: string)
    ensures ParseMember(key, Member(key, value, rest)) == Some((value, rest))
  {
    ExpectRead(key, "\"" + (Escape(value) + ("\"" + rest)));
    ExpectRead("\"", Escape(value) + ("\"" + rest));
    EscapeRoundTrip(value, rest);
  }

  lemma BoolRead(b: bool, rest: string)
    ensures ParseBool(BoolText(b) + rest) == Some((b, rest))
  {
    ExpectRead(BoolText(b), rest);
    if !b {
      assert ("false" + rest)[0] == 'f';
    }
  }

  /** `getUser` after `setUser(u)` gives back `u`: parsing the stringified profile restores every field. */
  lemma StringifyRoundTrip(u: UserProfile)
    ensures ParseUser(Stringify(u)) == Some(u)
  {
    var tail3 := Member(",\"created_at\":", u.createdAt, "}");
    var tail2 := ",\"is_super_admin\":" + (BoolText(u.isSuperAdmin) + tail3);
    var tail1 := Member(",\"email\":", u.email, tail2);
    MemberRead("{\"id\":", u.id, tail1);
    MemberRead(",\"email\":", u.email, tail2);
    ExpectRead(",\"is_super_admin\":", BoolText(u.isSuperAdmin) + tail3);
    BoolRead(u.isSuperAdmin, tail3);
    MemberRead(",\"created_at\":", u.createdAt, "}");
  }

  /** Two different profiles are never stored as the same text, and a stored profile is never the empty (falsy) string. */
  lemma StringifyInjective(u: UserProfile, v: UserProfile)
    ensures Stringify(u) == Stringify(v) ==> u == v
    ensures Stringify(u) != ""
  {
    StringifyRoundTrip(u);
    StringifyRoundTrip(v);
  }
}
