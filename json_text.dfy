/**
 * Python's `json.dumps` and `json.loads` on a list of strings: dumps with the
 * default settings (ASCII-only output, separator ", "), loads as the strict
 * decoder reads a JSON array whose elements are strings (RFC 8259, sections 5
 * and 7). The predictor sends the alert patterns through both before writing
 * them into its template, and the round trip gives back the list it started
 * with.
 */
module JsonText {
  import opened Wrappers

  // ---------------------------------------------------------------------
  // Encoding

  /** `json.dumps(xs)`. */
  function Dumps(xs: seq<string>): string
  {
    "[" + Join(xs) + "]"
  }

  /** The elements, quoted, with ", " between them. */
  function Join(xs: seq<string>): string
  {
    if xs == [] then ""
    else if |xs| == 1 then Quote(xs[0])
    else Quote(xs[0]) + ", " + Join(xs[1..])
  }

  function Quote(s: string): string
  {
    "\"" + Escape(s) + "\""
  }

  function Escape(s: string): string
  {
    if s == [] then "" else EscapeChar(s[0]) + Escape(s[1..])
  }

  /**
   * How the ASCII encoder writes one character: the quote and the backslash
   * and five control characters by their short escapes, printable ASCII as
   * itself, everything else as `\uXXXX` in lower-case hex, beyond the Basic
   * Multilingual Plane as a surrogate pair.
   */
  function EscapeChar(c: char): string
  {
    if c == '"' then "\\\""
    else if c == '\\' then "\\\\"
    else if c == '\U{8}' then "\\b"
    else if c == '\U{c}' then "\\f"
    else if c == '\n' then "\\n"
    else if c == '\r' then "\\r"
    else if c == '\t' then "\\t"
    else if ' ' <= c <= '~' then [c]
    else if c as int < 0x1_0000 then U4(c as int)
    else
      // 0xd800 | (n >> 10) and 0xdc00 | (n & 0x3ff) with n < 0x10_0000
      var n := c as int - 0x1_0000;
      U4(0xD800 + n / 0x400) + U4(0xDC00 + n % 0x400)
  }

  function HexDigit(d: int): char
    requires 0 <= d < 16
  {
    if d < 10 then ('0' as int + d) as char else ('a' as int + d - 10) as char
  }

  /** `\uXXXX` */
  function U4(n: int): string
    requires 0 <= n < 0x1_0000
  {
    ['\\', 'u', HexDigit(n / 0x1000), HexDigit(n / 0x100 % 0x10), HexDigit(n / 0x10 % 0x10), HexDigit(n % 0x10)]
  }

  // ---------------------------------------------------------------------
  // Decoding

  predicate IsWhitespace(c: char)
  {
    c == ' ' || c == '\t' || c == '\n' || c == '\r'
  }

  function SkipWhitespace(s: string): (r: string)
    ensures |r| <= |s|
  {
    if s != [] && IsWhitespace(s[0]) then SkipWhitespace(s[1..]) else s
  }

  function HexValue(c: char): (r: Option<int>)
    ensures r.Some? ==> 0 <= r.value < 16
  {
    if '0' <= c <= '9' then Some(c as int - '0' as int)
    else if 'a' <= c <= 'f' then Some(c as int - 'a' as int + 10)
    else if 'A' <= c <= 'F' then Some(c as int - 'A' as int + 10)
    else None
  }

  /** Four hex digits, in either case. */
  function Hex4(s: string): (r: Option<int>)
    requires |s| == 4
    ensures r.Some? ==> 0 <= r.value < 0x1_0000
  {
    match (HexValue(s[0]), HexValue(s[1]), HexValue(s[2]), HexValue(s[3]))
    case (Some(a), Some(b), Some(c), Some(d)) => Some(((a * 16 + b) * 16 + c) * 16 + d)
    case _ => None
  }

  /**
   * The character that an escape stands for, and the text after it; `s` is
   * the text after the backslash. A high surrogate followed by an escaped low
   * surrogate is one character; a surrogate on its own is no character.
   */
  function Unescape(s: string): (r: Option<(char, string)>)
    ensures r.Some? ==> |r.value.1| < |s|
  {
    if s == [] then None
    else if s[0] == '"' then Some(('"', s[1..]))
    else if s[0] == '\\' then Some(('\\', s[1..]))
    else if s[0] == '/' then Some(('/', s[1..]))
    else if s[0] == 'b' then Some(('\U{8}', s[1..]))
    else if s[0] == 'f' then Some(('\U{c}', s[1..]))
    else if s[0] == 'n' then Some(('\n', s[1..]))
    else if s[0] == 'r' then Some(('\r', s[1..]))
    else if s[0] == 't' then Some(('\t', s[1..]))
    else if s[0] == 'u' && |s| >= 5 && Hex4(s[1..5]).Some? then
      var n := Hex4(s[1..5]).value;
      if 0xD800 <= n < 0xDC00 && |s| >= 11 && s[5..7] == "\\u" && Hex4(s[7..11]).Some?
         && 0xDC00 <= Hex4(s[7..11]).value < 0xE000
      then
        var m := Hex4(s[7..11]).value;
        Some(((0x1_0000 + (n - 0xD800) * 0x400 + (m - 0xDC00)) as char, s[11..]))
      else if 0xD800 <= n < 0xE000 then None
      else Some((n as char, s[5..]))
    else None
  }

  /**
   * The contents of a string literal and the text after its closing quote;
   * `s` is the text after the opening quote. A raw control character is an
   * error, as in the strict decoder.
   */
  function ParseBody(s: string): (r: Option<(string, string)>)
    ensures r.Some? ==> |r.value.1| < |s|
    decreases |s|
  {
    if s == [] then None
    else if s[0] == '"' then Some(([], s[1..]))
    else if s[0] == '\\' then
      match Unescape(s[1..])
      case None => None
      case Some((c, rest)) =>
        match ParseBody(rest)
        case None => None
        case Some((t, after)) => Some(([c] + t, after))
    else if s[0] < ' ' then None
    else
      match ParseBody(s[1..])
      case None => None
      case Some((t, after)) => Some(([s[0]] + t, after))
  }

  /**
   * The string elements of an array up to and including its closing bracket;
   * `s` is the text where an element must start.
   */
  function ParseElements(s: string): (r: Option<(seq<string>, string)>)
    ensures r.Some? ==> |r.value.1| < |s|
    decreases |s|
  {
    var t := SkipWhitespace(s);
    if t == [] || t[0] != '"' then None
    else
      match ParseBody(t[1..])
      case None => None
      case Some((x, rest)) =>
        var u := SkipWhitespace(rest);
        if u != [] && u[0] == ']' then Some(([x], u[1..]))
        else if u != [] && u[0] == ',' then
          match ParseElements(u[1..])
          case None => None
          case Some((xs, after)) => Some(([x] + xs, after))
        else None
  }

  /** `json.loads(text)` where the text is an array of strings; None for anything else. */
  function Loads(text: string): Option<seq<string>>
  {
    var t := SkipWhitespace(text);
    if t == [] || t[0] != '[' then None
    else
      var u := SkipWhitespace(t[1..]);
      if u != [] && u[0] == ']' then
        if SkipWhitespace(u[1..]) == [] then Some([]) else None
      else
        match ParseElements(u)
        case None => None
        case Some((xs, rest)) => if SkipWhitespace(rest) == [] then Some(xs) else None
  }

  // ---------------------------------------------------------------------
  // The round trip

  lemma HexDigitValue(d: int)
    requires 0 <= d < 16
    ensures HexValue(HexDigit(d)) == Some(d)
  {
  }

  /** The four digits of U4 read back as the number. */
  lemma Hex4RoundTrip(n: int)
    requires 0 <= n < 0x1_0000
    ensures Hex4(U4(n)[2..]) == Some(n)
  {
    var a, b, c, d := n / 0x1000, n / 0x100 % 0x10, n / 0x10 % 0x10, n % 0x10;
    HexDigitValue(a);
    HexDigitValue(b);
    HexDigitValue(c);
    HexDigitValue(d);
    assert U4(n)[2..] == [HexDigit(a), HexDigit(b), HexDigit(c), HexDigit(d)];
    assert n / 0x100 == a * 16 + b;
    assert n / 0x10 == (a * 16 + b) * 16 + c;
  }

  /** An escape the encoder writes is decoded to the character it came from. */
  lemma UnescapeEscapeChar(c: char, rest: string)
    requires EscapeChar(c)[0] == '\\'
    ensures Unescape(EscapeChar(c)[1..] + rest) == Some((c, rest))
  {
    if c == '"' || c == '\\' || c == '\U{8}' || c == '\U{c}' || c == '\n' || c == '\r' || c == '\t' {
      assert (EscapeChar(c)[1..] + rest)[1..] == rest;
    } else if c as int < 0x1_0000 {
      UnescapeBasic(c, rest);
    } else {
      UnescapePair(c, rest);
    }
  }

  /** A character of the Basic Multilingual Plane written as `\uXXXX`. */
  lemma UnescapeBasic(c: char, rest: string)
    requires !(' ' <= c <= '~') && c as int < 0x1_0000
    requires !(c == '"' || c == '\\' || c == '\U{8}' || c == '\U{c}' || c == '\n' || c == '\r' || c == '\t')
    ensures Unescape(EscapeChar(c)[1..] + rest) == Some((c, rest))
  {
    var n := c as int;
    var s := U4(n)[1..] + rest;
    assert EscapeChar(c) == U4(n);
    Hex4RoundTrip(n);
    assert s[1..5] == U4(n)[2..];
    assert s[5..] == rest;
  }

  /** A character beyond the Basic Multilingual Plane written as a surrogate pair. */
  lemma UnescapePair(c: char, rest: string)
    requires c as int >= 0x1_0000
    ensures Unescape(EscapeChar(c)[1..] + rest) == Some((c, rest))
  {
    var n := c as int - 0x1_0000;
    var hi, lo := 0xD800 + n / 0x400, 0xDC00 + n % 0x400;
    assert EscapeChar(c)[1..] + rest == U4(hi)[1..] + (U4(lo) + rest);
    UnescapeSurrogates(hi, lo, rest);
  }

  /** `\uD8xx\uDCxx` is the one character the two surrogates stand for. */
  lemma UnescapeSurrogates(hi: int, lo: int, rest: string)
    requires 0xD800 <= hi < 0xDC00 && 0xDC00 <= lo < 0xE000
    ensures Unescape(U4(hi)[1..] + (U4(lo) + rest))
         == Some(((0x1_0000 + (hi - 0xD800) * 0x400 + (lo - 0xDC00)) as char, rest))
  {
    var s := U4(hi)[1..] + (U4(lo) + rest);
    Hex4RoundTrip(hi);
    Hex4RoundTrip(lo);
    assert s[1..5] == U4(hi)[2..];
    assert s[5..7] == "\\u";
    assert s[7..11] == U4(lo)[2..];
    assert s[11..] == rest;
  }

  /** The body of a quoted string reads back as the string, up to its closing quote. */
  lemma {:induction false} BodyRoundTrip(s: string, rest: string)
    ensures ParseBody(Escape(s) + "\"" + rest) == Some((s, rest))
    decreases |s|
  {
    if s == [] {
      assert Escape(s) + "\"" + rest == "\"" + rest;
    } else {
      var c := s[0];
      var tail := Escape(s[1..]) + "\"" + rest;
      assert Escape(s) + "\"" + rest == EscapeChar(c) + tail;
      BodyRoundTrip(s[1..], rest);
      if EscapeChar(c)[0] == '\\' {
        UnescapeEscapeChar(c, tail);
        assert (EscapeChar(c) + tail)[1..] == EscapeChar(c)[1..] + tail;
      } else {
        assert EscapeChar(c) == [c] && ' ' <= c && c != '"';
        assert (EscapeChar(c) + tail)[1..] == tail;
      }
      assert [c] + s[1..] == s;
    }
  }

  lemma NoWhitespaceToSkip(s: string)
    requires s != [] && !IsWhitespace(s[0])
    ensures SkipWhitespace(s) == s
  {
  }

  /** An element followed by the closing bracket ends the array. */
  lemma LastElement(s: string, x: string, rest: string)
    requires s != [] && s[0] == '"' && ParseBody(s[1..]) == Some((x, "]" + rest))
    ensures ParseElements(s) == Some(([x], rest))
  {
    NoWhitespaceToSkip(s);
    NoWhitespaceToSkip("]" + rest);
    assert ("]" + rest)[1..] == rest;
  }

  /** An element followed by ", " and more elements. */
  lemma NextElement(s: string, x: string, more: string, xs: seq<string>, rest: string)
    requires s != [] && s[0] == '"' && ParseBody(s[1..]) == Some((x, ", " + more))
    requires more != [] && more[0] == '"' && ParseElements(more) == Some((xs, rest))
    ensures ParseElements(s) == Some(([x] + xs, rest))
  {
    NoWhitespaceToSkip(s);
    NoWhitespaceToSkip(", " + more);
    assert (", " + more)[1..] == " " + more;
    assert SkipWhitespace(" " + more) == SkipWhitespace(more);
    NoWhitespaceToSkip(more);
    assert ParseElements(" " + more) == ParseElements(more);
  }

  /** A quoted string followed by some text: its body, its closing quote, the text. */
  lemma QuoteThen(x: string, after: string)
    ensures (Quote(x) + after)[0] == '"'
    ensures (Quote(x) + after)[1..] == Escape(x) + "\"" + after
  {
    assert Quote(x) + after == "\"" + (Escape(x) + "\"" + after);
  }

  /** A non-empty joined list, its closing bracket and what follows read back as the list. */
  lemma {:induction false} ElementsRoundTrip(xs: seq<string>, rest: string)
    requires xs != []
    ensures ParseElements(Join(xs) + "]" + rest) == Some((xs, rest))
    decreases |xs|
  {
    if |xs| == 1 {
      SingleElementRoundTrip(xs[0], rest);
      assert [xs[0]] == xs;
    } else {
      ElementsRoundTrip(xs[1..], rest);
      MoreElementsRoundTrip(xs, rest);
    }
  }

  lemma SingleElementRoundTrip(x: string, rest: string)
    ensures ParseElements(Join([x]) + "]" + rest) == Some(([x], rest))
  {
    var s := Quote(x) + ("]" + rest);
    assert Join([x]) + "]" + rest == s;
    QuoteThen(x, "]" + rest);
    BodyRoundTrip(x, "]" + rest);
    LastElement(s, x, rest);
  }

  lemma MoreElementsRoundTrip(xs: seq<string>, rest: string)
    requires |xs| > 1
    requires ParseElements(Join(xs[1..]) + "]" + rest) == Some((xs[1..], rest))
    ensures ParseElements(Join(xs) + "]" + rest) == Some((xs, rest))
  {
    var x := xs[0];
    var more := Join(xs[1..]) + "]" + rest;
    var s := Quote(x) + (", " + more);
    Associate3(Join(xs), "]", rest);
    Associate3(Join(xs[1..]), "]", rest);
    JoinCons(xs, "]" + rest);
    assert Join(xs) + "]" + rest == s;
    QuoteThen(x, ", " + more);
    BodyRoundTrip(x, ", " + more);
    JoinStartsWithQuote(xs[1..], "]" + rest);
    NextElement(s, x, more, xs[1..], rest);
    assert [x] + xs[1..] == xs;
  }

  lemma Associate3(a: string, b: string, c: string)
    ensures a + b + c == a + (b + c)
  {
  }

  /** Joining a list of two or more: the first element quoted, ", ", the rest joined. */
  lemma JoinCons(xs: seq<string>, after: string)
    requires |xs| > 1
    ensures Join(xs) + after == Quote(xs[0]) + (", " + (Join(xs[1..]) + after))
  {
    var q, j := Quote(xs[0]), Join(xs[1..]);
    assert Join(xs) == q + ", " + j;
    Associate(q, ", ", j, after);
  }

  lemma Associate(a: string, b: string, c: string, d: string)
    ensures a + b + c + d == a + (b + (c + d))
  {
  }

  lemma JoinStartsWithQuote(xs: seq<string>, after: string)
    requires xs != []
    ensures (Join(xs) + after)[0] == '"'
  {
    if |xs| == 1 {
      QuoteThen(xs[0], after);
    } else {
      QuoteThen(xs[0], ", " + Join(xs[1..]) + after);
      assert Join(xs) + after == Quote(xs[0]) + (", " + Join(xs[1..]) + after);
    }
  }

  /** `json.loads(json.dumps(xs)) == xs` for every list of strings. */
  lemma RoundTrip(xs: seq<string>)
    ensures Loads(Dumps(xs)) == Some(xs)
  {
    var text := Dumps(xs);
    NoWhitespaceToSkip(text);
    if xs == [] {
      assert text[1..] == "]";
      NoWhitespaceToSkip(text[1..]);
    } else {
      var u := Join(xs) + "]" + "";
      assert text[1..] == u;
      JoinStartsWithQuote(xs, "]");
      NoWhitespaceToSkip(u);
      ElementsRoundTrip(xs, "");
    }
  }
}
