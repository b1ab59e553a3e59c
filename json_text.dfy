/**
 * The string case of `JSON.stringify`: a string becomes the source text of a
 * JavaScript string literal, which the build inlines into the bootstrap script
 * as a constant. `Parse` reads such a literal back.
 */
module JsonText {
  import opened Results

  function HexDigit(d: nat): (c: char)
    requires d < 16
  {
    if d < 10 then (('0' as int) + d) as char else (('a' as int) + d - 10) as char
  }

  function HexValue(c: char): (v: Option<nat>)
    ensures v.Some? ==> v.value < 16
  {
    if '0' <= c <= '9' then Some(c as int - '0' as int)
    else if 'a' <= c <= 'f' then Some(c as int - 'a' as int + 10)
    else if 'A' <= c <= 'F' then Some(c as int - 'A' as int + 10)
    else None
  }

  /** What `JSON.stringify` writes for one character: a short escape, a `\u00XX` escape for other control characters, or the character itself. */
  function EscapeChar(c: char): string {
    var n := c as int;
    if n == 0x22 then ['\\', '"']
    else if n == 0x5C then ['\\', '\\']
    else if n == 0x08 then ['\\', 'b']
    else if n == 0x09 then ['\\', 't']
    else if n == 0x0A then ['\\', 'n']
    else if n == 0x0C then ['\\', 'f']
    else if n == 0x0D then ['\\', 'r']
    else if n < 0x20 then ['\\', 'u', '0', '0', HexDigit(n / 16), HexDigit(n % 16)]
    else [c]
  }

  function Escape(s: string): string {
    if s == [] then [] else EscapeChar(s[0]) + Escape(s[1..])
  }

  /** `JSON.stringify(s)` for a string `s`. */
  function Stringify(s: string): string {
    ['"'] + Escape(s) + ['"']
  }

  /** The character a one-letter escape sequence stands for. */
  function ShortEscape(e: char): Option<char> {
    if e == '"' then Some('"')
    else if e == '\\' then Some('\\')
    else if e == '/' then Some('/')
    else if e == 'b' then Some(8 as char)
    else if e == 't' then Some(9 as char)
    else if e == 'n' then Some(10 as char)
    else if e == 'f' then Some(12 as char)
    else if e == 'r' then Some(13 as char)
    else None
  }

  function Prepend(c: char, rest: Option<string>): Option<string> {
    match rest
    case None => None
    case Some(s) => Some([c] + s)
  }

  /** The characters denoted by the body of a double-quoted literal; `None` when the body is malformed. */
  function Unescape(t: string): Option<string>
    decreases |t|
  {
    if t == [] then Some([])
    else if t[0] == '\\' then
      if |t| < 2 then None
      else if t[1] == 'u' then
        if |t| < 6 then None
        else
          var h0, h1, h2, h3 := HexValue(t[2]), HexValue(t[3]), HexValue(t[4]), HexValue(t[5]);
          if h0.None? || h1.None? || h2.None? || h3.None? then None
          else
            var v := ((h0.value * 16 + h1.value) * 16 + h2.value) * 16 + h3.value;
            // a lone surrogate does not denote a character
            if 0xD800 <= v < 0xE000 then None else Prepend(v as char, Unescape(t[6..]))
      else
        match ShortEscape(t[1])
        case None => None
        case Some(c) => Prepend(c, Unescape(t[2..]))
    else if t[0] == '"' || (t[0] as int) < 0x20 then None
    else Prepend(t[0], Unescape(t[1..]))
  }

  /** The string a double-quoted literal evaluates to. */
  function Parse(literal: string): Option<string> {
    if |literal| >= 2 && literal[0] == '"' && literal[|literal| - 1] == '"' then
      Unescape(literal[1..|literal| - 1])
    else
      None
  }

  lemma HexRoundTrip(d: nat)
    requires d < 16
    ensures HexValue(HexDigit(d)) == Some(d)
  {
  }

  /** Reading the escape of one character yields that character, then whatever follows. */
  lemma UnescapeEscapeChar(c: char, t: string)
    ensures Unescape(EscapeChar(c) + t) == Prepend(c, Unescape(t))
  {
    var n := c as int;
    var e := EscapeChar(c) + t;
    if n == 0x22 || n == 0x5C || n == 0x08 || n == 0x09 || n == 0x0A || n == 0x0C || n == 0x0D {
      assert e[2..] == t;
    } else if n < 0x20 {
      HexRoundTrip(0);
      HexRoundTrip(n / 16);
      HexRoundTrip(n % 16);
      assert e[6..] == t;
      assert ((0 * 16 + 0) * 16 + n / 16) * 16 + n % 16 == n;
    } else {
      assert e[1..] == t;
    }
  }

  lemma {:induction false} UnescapeEscape(s: string)
    ensures Unescape(Escape(s)) == Some(s)
  {
    if s != [] {
      UnescapeEscapeChar(s[0], Escape(s[1..]));
      UnescapeEscape(s[1..]);
      assert [s[0]] + s[1..] == s;
    }
  }

  /** The literal `JSON.stringify` writes evaluates back to the original string. */
  lemma ParseStringify(s: string)
    ensures Parse(Stringify(s)) == Some(s)
  {
    var literal := Stringify(s);
    assert literal[1..|literal| - 1] == Escape(s);
    UnescapeEscape(s);
  }

  /** Distinct strings are written as distinct literals. */
  lemma StringifyInjective(s: string, t: string)
    requires Stringify(s) == Stringify(t)
    ensures s == t
  {
    ParseStringify(s);
    ParseStringify(t);
  }
}
