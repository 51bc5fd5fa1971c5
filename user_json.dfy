/**
 * The session record `{email, userId, token}` and its JSON text, as
 * `JSON.stringify` writes it into browser storage and `JSON.parse` reads it back.
 * The parser accepts the layout the writer produces (with any of JSON's string
 * escapes for a basic-plane character); the round trip is proved.
 */
module UserJson {
  import opened Base
  import opened Text

  /** A signed-in user as the login response describes it; an empty field stands for a missing one. */
  datatype User = User(email: string, userId: string, token: string)

  // ---------------------------------------------------------------------------
  // writing: JSON.stringify
  // ---------------------------------------------------------------------------

  /** A lower-case hexadecimal digit, as `JSON.stringify` writes them in `\u00XX`. */
  function LowerHex(n: int): (c: char)
    requires 0 <= n < 16
  {
    if n < 10 then ('0' as int + n) as char else ('a' as int + n - 10) as char
  }

  /** How `JSON.stringify` writes one character inside a string literal. */
  function EscapeChar(c: char): (r: string)
    ensures 1 <= |r| <= 6
    ensures r[0] != '"'
  {
    if c == '"' then "\\\""
    else if c == '\\' then "\\\\"
    else if c == '\U{8}' then "\\b"
    else if c == '\U{C}' then "\\f"
    else if c == '\n' then "\\n"
    else if c == '\r' then "\\r"
    else if c == '\t' then "\\t"
    else if (c as int) < 0x20 then ['\\', 'u', '0', '0', LowerHex(c as int / 16), LowerHex(c as int % 16)]
    else [c]
  }

  function Escape(s: string): string
    decreases |s|
  {
    if s == [] then [] else EscapeChar(s[0]) + Escape(s[1..])
  }

  /** A JSON string literal. */
  function Quote(s: string): string
  {
    "\"" + Escape(s) + "\""
  }

  const EmailField := "{\"email\":"
  const UserIdField := ",\"userId\":"
  const TokenField := ",\"token\":"

  /** `JSON.stringify({email, userId, token})`, keys in the order the login handler builds them. */
  function Stringify(u: User): (text: string)
    ensures StartsWith(text, EmailField) && text[|text| - 1] == '}'
  {
    EmailField + Quote(u.email) + UserIdField + Quote(u.userId) + TokenField + Quote(u.token) + "}"
  }

  // ---------------------------------------------------------------------------
  // reading: JSON.parse
  // ---------------------------------------------------------------------------

  /** The value of a hexadecimal digit of either case, or -1. */
  function HexValue(c: char): (v: int)
    ensures -1 <= v < 16
  {
    if '0' <= c <= '9' then c as int - '0' as int
    else if 'a' <= c <= 'f' then c as int - 'a' as int + 10
    else if 'A' <= c <= 'F' then c as int - 'A' as int + 10
    else -1
  }

  /**
   * One character of a string literal (not its closing quote): the character
   * it stands for and how many characters of `s` it took, or `None` where
   * `JSON.parse` throws (a bare control character, an unknown escape).
   */
  function ReadChar(s: string): (r: Option<(char, nat)>)
    requires s != [] && s[0] != '"'
    ensures r.Some? ==> 1 <= r.value.1 <= |s|
  {
    if s[0] == '\\' then
      if |s| < 2 then None
      else if s[1] == '"' || s[1] == '\\' || s[1] == '/' then Some((s[1], 2))
      else if s[1] == 'b' then Some(('\U{8}', 2))
      else if s[1] == 'f' then Some(('\U{C}', 2))
      else if s[1] == 'n' then Some(('\n', 2))
      else if s[1] == 'r' then Some(('\r', 2))
      else if s[1] == 't' then Some(('\t', 2))
      else if s[1] == 'u' && |s| >= 6 && HexValue(s[2]) >= 0 && HexValue(s[3]) >= 0 && HexValue(s[4]) >= 0 && HexValue(s[5]) >= 0 then
        var v := HexValue(s[2]) * 4096 + HexValue(s[3]) * 256 + HexValue(s[4]) * 16 + HexValue(s[5]);
        if v < 0xD800 || 0xE000 <= v then Some((v as char, 6)) else None
      else None
    else if (s[0] as int) < 0x20 then None
    else Some((s[0], 1))
  }

  /** The characters of a string literal up to its closing quote, and the text after that quote. */
  function ReadChars(s: string): Option<(string, string)>
    decreases |s|
  {
    if s == [] then None
    else if s[0] == '"' then Some(("", s[1..]))
    else
      match ReadChar(s)
      case None => None
      case Some((c, n)) =>
        match ReadChars(s[n..])
        case None => None
        case Some((v, rest)) => Some(([c] + v, rest))
  }

  /** A string literal at the start of `s`, and the text after it. */
  function ReadQuoted(s: string): Option<(string, string)>
  {
    if s == [] || s[0] != '"' then None else ReadChars(s[1..])
  }

  /** A literal key at the start of `s` followed by a string literal: the string, and the text after it. */
  function ReadField(s: string, key: string): (r: Option<(string, string)>)
    ensures r.Some? ==> StartsWith(s, key)
  {
    if StartsWith(s, key) then ReadQuoted(s[|key|..]) else None
  }

  /** `JSON.parse(text)` for the stored user record; `None` where it would throw or yield something else. */
  function ParseUser(text: string): (u: Option<User>)
    ensures u.Some? ==> StartsWith(text, EmailField)
  {
    match ReadField(text, EmailField)
    case None => None
    case Some((email, r1)) =>
      match ReadField(r1, UserIdField)
      case None => None
      case Some((userId, r2)) =>
        match ReadField(r2, TokenField)
        case None => None
        case Some((token, r3)) => if r3 == "}" then Some(User(email, userId, token)) else None
  }

  // ---------------------------------------------------------------------------
  // the round trip
  // ---------------------------------------------------------------------------

  lemma HexRoundTrip(n: int)
    requires 0 <= n < 16
    ensures HexValue(LowerHex(n)) == n
  {
  }

  /** Reading back the escape of one character yields that character and consumes exactly the escape. */
  lemma ReadEscapedChar(c: char, s: string)
    ensures var e := EscapeChar(c);
      (e + s)[0] != '"' && ReadChar(e + s) == Some((c, |e|))
  {
    var e := EscapeChar(c);
    var t := e + s;
    if c as int < 0x20 && c != '\U{8}' && c != '\U{C}' && c != '\n' && c != '\r' && c != '\t' {
      var n := c as int;
      HexRoundTrip(n / 16);
      HexRoundTrip(n % 16);
      assert t[..6] == e;
      assert HexValue(t[2]) == 0 && HexValue(t[3]) == 0;
      assert HexValue(t[4]) * 16 + HexValue(t[5]) == n;
    }
  }

  /** The escaped text of `x` followed by a closing quote reads back as `x`, leaving what follows. */
  lemma {:induction false} ReadEscaped(x: string, rest: string)
    ensures ReadChars(Escape(x) + "\"" + rest) == Some((x, rest))
    decreases |x|
  {
    if x == [] {
      assert Escape(x) + "\"" + rest == "\"" + rest;
    } else {
      var e := EscapeChar(x[0]);
      var tail := Escape(x[1..]) + "\"" + rest;
      assert Escape(x) + "\"" + rest == e + tail;
      ReadEscapedChar(x[0], tail);
      assert (e + tail)[|e|..] == tail;
      ReadEscaped(x[1..], rest);
      assert [x[0]] + x[1..] == x;
    }
  }

  lemma ReadQuotedRoundTrip(x: string, rest: string)
    ensures ReadQuoted(Quote(x) + rest) == Some((x, rest))
  {
    var s := Quote(x) + rest;
    assert s[1..] == Escape(x) + "\"" + rest;
    ReadEscaped(x, rest);
  }

  lemma ReadFieldRoundTrip(key: string, x: string, rest: string)
    ensures ReadField(key + Quote(x) + rest, key) == Some((x, rest))
  {
    var s := key + Quote(x) + rest;
    assert s[..|key|] == key;
    assert s[|key|..] == Quote(x) + rest;
    ReadQuotedRoundTrip(x, rest);
  }

  /** What `JSON.stringify` writes, `JSON.parse` reads back unchanged. */
  lemma ParseStringify(u: User)
    ensures ParseUser(Stringify(u)) == Some(u)
  {
    var t3 := TokenField + Quote(u.token) + "}";
    var t2 := UserIdField + Quote(u.userId) + t3;
    assert Stringify(u) == EmailField + Quote(u.email) + t2;
    ReadFieldRoundTrip(EmailField, u.email, t2);
    assert ReadField(Stringify(u), EmailField) == Some((u.email, t2));
    ReadFieldRoundTrip(UserIdField, u.userId, t3);
    ReadFieldRoundTrip(TokenField, u.token, "}");
  }
}
