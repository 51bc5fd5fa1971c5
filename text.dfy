/**
 * The string operations the client script relies on, written out with
 * JavaScript's semantics: `startsWith`, `split`, `trim`, `length` (counted in
 * UTF-16 code units), the `<` comparison of strings, `encodeURIComponent`
 * and `URLSearchParams.get`.
 */
module Text {
  import opened Base

  /** `s.startsWith(prefix)`. */
  predicate StartsWith(s: string, prefix: string)
  {
    |prefix| <= |s| && s[..|prefix|] == prefix
  }

  // ---------------------------------------------------------------------------
  // split and join
  // ---------------------------------------------------------------------------

  /** `s.split(sep)` for a one-character separator: the pieces between separators, in order. */
  function Split(s: string, sep: char): (parts: seq<string>)
    ensures |parts| >= 1
    ensures forall k :: 0 <= k < |parts| ==> sep !in parts[k]
    decreases |s|
  {
    if s == [] then [""]
    else
      var rest := Split(s[1..], sep);
      if s[0] == sep then [""] + rest
      else [[s[0]] + rest[0]] + rest[1..]
  }

  /** `parts.join(sep)`: the inverse of `Split`. */
  function Join(parts: seq<string>, sep: char): string
    requires |parts| >= 1
    decreases |parts|
  {
    if |parts| == 1 then parts[0] else parts[0] + [sep] + Join(parts[1..], sep)
  }

  /** Splitting and joining again gives back the original text. */
  lemma {:induction false} JoinSplit(s: string, sep: char)
    ensures Join(Split(s, sep), sep) == s
    decreases |s|
  {
    if s != [] {
      var rest := Split(s[1..], sep);
      JoinSplit(s[1..], sep);
      if s[0] == sep {
        assert Split(s, sep) == [""] + rest;
        assert ([""] + rest)[1..] == rest;
      } else {
        var parts := Split(s, sep);
        assert parts == [[s[0]] + rest[0]] + rest[1..];
        if |rest| == 1 {
          assert Join(parts, sep) == [s[0]] + rest[0];
        } else {
          assert parts[1..] == rest[1..];
          assert Join(rest, sep) == rest[0] + [sep] + Join(rest[1..], sep);
        }
      }
    }
  }

  /** Joining pieces that do not contain the separator and splitting again gives back the pieces. */
  lemma {:induction false} SplitJoin(parts: seq<string>, sep: char)
    requires |parts| >= 1
    requires forall k :: 0 <= k < |parts| ==> sep !in parts[k]
    ensures Split(Join(parts, sep), sep) == parts
    decreases |parts|
  {
    if |parts| == 1 {
      SplitNoSep(parts[0], sep);
    } else {
      SplitJoin(parts[1..], sep);
      SplitAfterPiece(parts[0], sep, Join(parts[1..], sep));
      assert [parts[0]] + parts[1..] == parts;
    }
  }

  /** Text without the separator splits into itself alone. */
  lemma {:induction false} SplitNoSep(s: string, sep: char)
    requires sep !in s
    ensures Split(s, sep) == [s]
    decreases |s|
  {
    if s != [] {
      SplitNoSep(s[1..], sep);
      assert [s[0]] + s[1..] == s;
    }
  }

  /** The first piece of `x + [sep] + y` is `x` and the others are the pieces of `y`. */
  lemma {:induction false} SplitAfterPiece(x: string, sep: char, y: string)
    requires sep !in x
    ensures Split(x + [sep] + y, sep) == [x] + Split(y, sep)
    decreases |x|
  {
    if x == [] {
      assert x + [sep] + y == [sep] + y;
      assert ([sep] + y)[1..] == y;
    } else {
      var s := x + [sep] + y;
      assert s[0] == x[0];
      assert s[1..] == x[1..] + [sep] + y;
      SplitAfterPiece(x[1..], sep, y);
      assert [x[0]] + x[1..] == x;
    }
  }

  /** `s.split(sep)[k]`: `None` stands for JavaScript's `undefined` when there are too few pieces. */
  function Piece(s: string, sep: char, k: nat): (r: Option<string>)
    ensures r.Some? ==> sep !in r.value
    ensures sep !in s ==> (r.Some? <==> k == 0)
  {
    var parts := Split(s, sep);
    SplitPlain(s, sep);
    if k < |parts| then Some(parts[k]) else None
  }

  /** Text without the separator splits into itself alone. */
  lemma SplitPlain(s: string, sep: char)
    ensures sep !in s ==> Split(s, sep) == [s]
  {
    if sep !in s {
      SplitNoSep(s, sep);
    }
  }

  /** The text before the first `sep` (all of `s` when there is none). */
  function UpTo(s: string, sep: char): (r: string)
    ensures sep !in r
    ensures StartsWith(s, r)
    ensures |r| < |s| ==> s[|r|] == sep
    decreases |s|
  {
    if s == [] || s[0] == sep then [] else [s[0]] + UpTo(s[1..], sep)
  }

  /**
   * `(q + sep + rest).split(sep)[1]` when `q` holds no separator: exactly the
   * text of `rest` up to its own first separator, the id segment of a REST-style hash.
   */
  lemma {:induction false} SecondPiece(q: string, sep: char, rest: string)
    requires sep !in q
    ensures Piece(q + [sep] + rest, sep, 1) == Some(UpTo(rest, sep))
  {
    SplitAfterPiece(q, sep, rest);
    FirstPiece(rest, sep);
  }

  /** The first piece of a split is the text up to the first separator. */
  lemma {:induction false} FirstPiece(s: string, sep: char)
    ensures Split(s, sep)[0] == UpTo(s, sep)
    decreases |s|
  {
    if s != [] && s[0] != sep {
      FirstPiece(s[1..], sep);
    }
  }

  // ---------------------------------------------------------------------------
  // whitespace and trim
  // ---------------------------------------------------------------------------

  /** The characters `String.prototype.trim` strips, which are also those `\s` matches in a regular expression. */
  predicate IsSpace(c: char)
  {
    var n := c as int;
    (0x9 <= n <= 0xD) || n == 0x20 || n == 0xA0 || n == 0x1680 || (0x2000 <= n <= 0x200A)
    || n == 0x2028 || n == 0x2029 || n == 0x202F || n == 0x205F || n == 0x3000 || n == 0xFEFF
  }

  /** `s` with its leading white space removed. */
  function TrimStart(s: string): string
    decreases |s|
  {
    if s != [] && IsSpace(s[0]) then TrimStart(s[1..]) else s
  }

  /** `s` with its trailing white space removed. */
  function TrimEnd(s: string): string
    decreases |s|
  {
    if s != [] && IsSpace(s[|s| - 1]) then TrimEnd(s[..|s| - 1]) else s
  }

  /** `s.trim()`. */
  function Trim(s: string): (r: string)
    ensures |r| <= |s|
    ensures r != [] ==> !IsSpace(r[0]) && !IsSpace(r[|r| - 1])
  {
    TrimStartShape(s);
    TrimEndShape(TrimStart(s));
    TrimEnd(TrimStart(s))
  }

  /** Trimming the start drops a prefix made only of white space and stops at the first other character. */
  lemma {:induction false} TrimStartShape(s: string)
    ensures var r := TrimStart(s);
      && |r| <= |s| && r == s[|s| - |r|..]
      && (r != [] ==> !IsSpace(r[0]))
      && forall i :: 0 <= i < |s| - |r| ==> IsSpace(s[i])
    decreases |s|
  {
    if s != [] && IsSpace(s[0]) {
      TrimStartShape(s[1..]);
    }
  }

  /** Trimming the end drops a suffix made only of white space and stops at the last other character. */
  lemma {:induction false} TrimEndShape(s: string)
    ensures var r := TrimEnd(s);
      && |r| <= |s| && r == s[..|r|]
      && (r != [] ==> !IsSpace(r[|r| - 1]))
      && forall i :: |r| <= i < |s| ==> IsSpace(s[i])
    decreases |s|
  {
    if s != [] && IsSpace(s[|s| - 1]) {
      TrimEndShape(s[..|s| - 1]);
    }
  }

  /** The trimmed text is a piece of the original with no white space at either end, and trimming twice changes nothing. */
  lemma TrimShape(s: string)
    ensures |Trim(s)| <= |TrimStart(s)| <= |s|
    ensures var r, k := Trim(s), |s| - |TrimStart(s)|;
      && r == s[k..k + |r|]
      && (r != [] ==> !IsSpace(r[0]) && !IsSpace(r[|r| - 1]))
      && Trim(r) == r
  {
    var t := TrimStart(s);
    TrimStartShape(s);
    TrimEndShape(t);
    var r := TrimEnd(t);
    if r != [] {
      assert r[0] == t[0];
      assert !IsSpace(r[0]);
      assert TrimStart(r) == r;
    }
  }

  /** `s.trim()` is empty exactly when `s` is all white space. */
  lemma TrimEmpty(s: string)
    ensures Trim(s) == [] <==> forall i :: 0 <= i < |s| ==> IsSpace(s[i])
  {
    TrimStartShape(s);
    TrimEndShape(TrimStart(s));
  }

  // ---------------------------------------------------------------------------
  // UTF-16: length and ordering
  // ---------------------------------------------------------------------------

  /** The UTF-16 code units of one character. */
  function CodeUnits(c: char): (u: seq<int>)
    ensures 1 <= |u| <= 2
    ensures |u| == 1 <==> c as int < 0x10000
  {
    var n := c as int;
    if n < 0x10000 then [n]
    else [0xD800 + (n - 0x10000) / 0x400, 0xDC00 + (n - 0x10000) % 0x400]
  }

  /** The UTF-16 code units of a string, the units JavaScript's strings are made of. */
  function Utf16(s: string): (u: seq<int>)
    ensures |s| <= |u| <= 2 * |s|
    decreases |s|
  {
    if s == [] then [] else CodeUnits(s[0]) + Utf16(s[1..])
  }

  /** `s.length`: the number of UTF-16 code units, which exceeds the number of characters for those outside the Basic Multilingual Plane. */
  function Utf16Length(s: string): (n: nat)
    ensures |s| <= n <= 2 * |s|
    ensures n == 0 <==> s == []
  {
    |Utf16(s)|
  }

  /** Lexicographic order on code-unit sequences; a proper prefix comes first. */
  predicate LexLessUnits(a: seq<int>, b: seq<int>)
    decreases |a|
  {
    if a == [] then b != []
    else if b == [] then false
    else if a[0] != b[0] then a[0] < b[0]
    else LexLessUnits(a[1..], b[1..])
  }

  /** `a < b` on JavaScript strings: code-unit lexicographic order. */
  predicate LexLess(a: string, b: string)
  {
    LexLessUnits(Utf16(a), Utf16(b))
  }

  /** One character lower-cased, for the ASCII letters `A` to `Z`. */
  function LowerChar(c: char): char
  {
    if 'A' <= c <= 'Z' then (c as int + 32) as char else c
  }

  /** `s.toLowerCase()` for text whose letters are ASCII: the same length, each letter lowered, nothing upper-case left. */
  function Lower(s: string): (r: string)
    ensures |r| == |s|
    ensures forall i :: 0 <= i < |s| ==> r[i] == LowerChar(s[i])
    ensures forall i :: 0 <= i < |r| ==> !('A' <= r[i] <= 'Z')
  {
    seq(|s|, i requires 0 <= i < |s| => LowerChar(s[i]))
  }

  // ---------------------------------------------------------------------------
  // digits and percent-encoding
  // ---------------------------------------------------------------------------

  predicate IsDigit(c: char)
  {
    '0' <= c <= '9'
  }

  /** `/^\d+$/.test(s)`: one or more ASCII digits and nothing else. */
  predicate AllDigits(s: string)
  {
    s != [] && forall i :: 0 <= i < |s| ==> IsDigit(s[i])
  }

  /** The characters `encodeURIComponent` leaves as they are. */
  predicate Unreserved(c: char)
  {
    ('A' <= c <= 'Z') || ('a' <= c <= 'z') || ('0' <= c <= '9')
    || c == '-' || c == '_' || c == '.' || c == '!' || c == '~' || c == '*' || c == '\'' || c == '(' || c == ')'
  }

  /** An upper-case hexadecimal digit. */
  function HexDigit(n: int): (c: char)
    requires 0 <= n < 16
    ensures Unreserved(c)
  {
    if n < 10 then ('0' as int + n) as char else ('A' as int + n - 10) as char
  }

  /** The UTF-8 encoding of one character, as byte values. */
  function Utf8(c: char): (bytes: seq<int>)
    ensures 1 <= |bytes| <= 4
    ensures forall i :: 0 <= i < |bytes| ==> 0 <= bytes[i] < 256
  {
    var n := c as int;
    if n < 0x80 then [n]
    else if n < 0x800 then [0xC0 + n / 0x40, 0x80 + n % 0x40]
    else if n < 0x10000 then [0xE0 + n / 0x1000, 0x80 + (n / 0x40) % 0x40, 0x80 + n % 0x40]
    else [0xF0 + n / 0x40000, 0x80 + (n / 0x1000) % 0x40, 0x80 + (n / 0x40) % 0x40, 0x80 + n % 0x40]
  }

  /** `%XX` for every byte. */
  function PercentBytes(bytes: seq<int>): (r: string)
    requires forall i :: 0 <= i < |bytes| ==> 0 <= bytes[i] < 256
    ensures |r| == 3 * |bytes|
    ensures forall i :: 0 <= i < |r| ==> r[i] == '%' || Unreserved(r[i])
  {
    if bytes == [] then []
    else ['%', HexDigit(bytes[0] / 16), HexDigit(bytes[0] % 16)] + PercentBytes(bytes[1..])
  }

  /**
   * `encodeURIComponent(s)`: unreserved characters are kept, every other
   * character becomes the percent-escapes of its UTF-8 bytes. The result holds
   * nothing but unreserved characters and `%`, so never a `/`, `?`, `#`, `&` or `=`.
   */
  function EncodeComponent(s: string): (r: string)
    ensures forall i :: 0 <= i < |r| ==> r[i] == '%' || Unreserved(r[i])
    ensures (forall i :: 0 <= i < |s| ==> Unreserved(s[i])) ==> r == s
    decreases |s|
  {
    if s == [] then []
    else (if Unreserved(s[0]) then [s[0]] else PercentBytes(Utf8(s[0]))) + EncodeComponent(s[1..])
  }

  // ---------------------------------------------------------------------------
  // URLSearchParams
  // ---------------------------------------------------------------------------

  /** The name of a `name=value` pair (all of it when there is no `=`). */
  function PairName(pair: string): string
  {
    UpTo(pair, '=')
  }

  /** The value of a `name=value` pair (empty when there is no `=`). */
  function PairValue(pair: string): string
  {
    var name := UpTo(pair, '=');
    if |name| < |pair| then pair[|name| + 1..] else ""
  }

  /** Pair `k` is a non-empty pair named `key`. */
  predicate Named(pairs: seq<string>, key: string, k: int)
  {
    0 <= k < |pairs| && pairs[k] != "" && PairName(pairs[k]) == key
  }

  /** Pair `k` is the first non-empty pair named `key`. */
  predicate FirstNamed(pairs: seq<string>, key: string, k: int)
  {
    Named(pairs, key, k) && forall j :: 0 <= j < k ==> !Named(pairs, key, j)
  }

  /** The value of the first pair named `key`, skipping empty pairs. */
  function FirstValue(pairs: seq<string>, key: string): (r: Option<string>)
    ensures r.Some? <==> exists k :: Named(pairs, key, k)
    ensures r.Some? ==> exists k :: FirstNamed(pairs, key, k) && r.value == PairValue(pairs[k])
    decreases |pairs|
  {
    if pairs == [] then None
    else if Named(pairs, key, 0) then
      assert FirstNamed(pairs, key, 0);
      Some(PairValue(pairs[0]))
    else
      var r := FirstValue(pairs[1..], key);
      NamedShift(pairs, key);
      assert r.Some? ==> exists k :: FirstNamed(pairs, key, k) && r.value == PairValue(pairs[k]) by {
        if r.Some? {
          var k :| FirstNamed(pairs[1..], key, k) && r.value == PairValue(pairs[1..][k]);
          assert FirstNamed(pairs, key, k + 1);
        }
      }
      r
  }

  /** Dropping a first pair that is not named `key` shifts every named pair down by one. */
  lemma NamedShift(pairs: seq<string>, key: string)
    requires pairs != [] && !Named(pairs, key, 0)
    ensures (exists k :: Named(pairs[1..], key, k)) <==> (exists k :: Named(pairs, key, k))
    ensures forall k :: FirstNamed(pairs[1..], key, k) ==> FirstNamed(pairs, key, k + 1)
  {
    forall k | Named(pairs, key, k)
      ensures Named(pairs[1..], key, k - 1)
    {
      assert pairs[1..][k - 1] == pairs[k];
    }
    forall k | Named(pairs[1..], key, k)
      ensures Named(pairs, key, k + 1)
    {
      assert pairs[1..][k] == pairs[k + 1];
    }
    forall k | FirstNamed(pairs[1..], key, k)
      ensures FirstNamed(pairs, key, k + 1)
    {
      forall j | 0 < j < k + 1
        ensures !Named(pairs, key, j)
      {
        assert pairs[1..][j - 1] == pairs[j];
      }
    }
  }

  /**
   * `new URLSearchParams(query).get(key)` on a query that may be `undefined`.
   * The value is returned as written, without percent-decoding.
   */
  function QueryGet(query: Option<string>, key: string): (r: Option<string>)
    ensures query.None? ==> r.None?
    ensures r.Some? ==> '&' !in r.value
  {
    match query
    case None => None
    case Some(q) =>
      var pairs := Split(q, '&');
      var r := FirstValue(pairs, key);
      assert r.Some? ==> '&' !in r.value by {
        if r.Some? {
          var k :| FirstNamed(pairs, key, k) && r.value == PairValue(pairs[k]);
          ValueWithout(pairs[k], '&');
        }
      }
      r
  }

  /** A character missing from a pair is missing from its value. */
  lemma ValueWithout(pair: string, c: char)
    requires c !in pair
    ensures c !in PairValue(pair)
  {
  }

  /** A query parameter that is present and non-empty: the truthy result of `params.get(key)`. */
  function QueryTruthy(query: Option<string>, key: string): string
  {
    QueryGet(query, key).GetOr("")
  }
}
