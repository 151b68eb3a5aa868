/**
 * The string escapes of Python's `json.dumps`, and their reading back.
 * With `ensure_ascii=False` the encoder escapes the quote, the backslash
 * and every control character below U+0020; with `ensure_ascii=True`, the
 * default, it also escapes every character outside U+0020..U+007E as
 * `\uXXXX` (lower-case hex), a character above U+FFFF as a surrogate pair.
 * The decoder follows section 7 of RFC 8259.
 */
module JsonStrings {
  import opened Wrappers

  /** The letter of a two-character escape, for the characters that have one. */
  function ShortEscape(c: char): (r: Option<char>)
    ensures r.Some? <==> c == '"' || c == '\\' || c == '\U{8}' || c == '\U{C}' || c == '\n' || c == '\r' || c == '\t'
  {
    if c == '"' then Some('"')
    else if c == '\\' then Some('\\')
    else if c == '\U{8}' then Some('b')
    else if c == '\U{C}' then Some('f')
    else if c == '\n' then Some('n')
    else if c == '\r' then Some('r')
    else if c == '\t' then Some('t')
    else None
  }

  /** The character a two-character escape stands for. */
  function Unescaped(x: char): (r: Option<char>)
    ensures forall c :: ShortEscape(c) == Some(x) ==> r == Some(c)
  {
    if x == '"' then Some('"')
    else if x == '\\' then Some('\\')
    else if x == '/' then Some('/')
    else if x == 'b' then Some('\U{8}')
    else if x == 'f' then Some('\U{C}')
    else if x == 'n' then Some('\n')
    else if x == 'r' then Some('\r')
    else if x == 't' then Some('\t')
    else None
  }

  /** Printable ASCII, U+0020 to U+007E: what `ensure_ascii=True` leaves unescaped. */
  predicate Printable(t: string) {
    forall k :: 0 <= k < |t| ==> ' ' <= t[k] <= '~'
  }

  /** No raw control character. */
  predicate NoControl(t: string) {
    forall k :: 0 <= k < |t| ==> t[k] >= ' '
  }

  /** What the encoder can emit: no raw control character, and only printable ASCII under `ensure_ascii`. */
  predicate Written(t: string, ensureAscii: bool) {
    NoControl(t) && (ensureAscii ==> Printable(t))
  }

  lemma WrittenConcat(a: string, b: string, ensureAscii: bool)
    requires Written(a, ensureAscii) && Written(b, ensureAscii)
    ensures Written(a + b, ensureAscii)
  {
    forall k | |a| <= k < |a + b| ensures (a + b)[k] == b[k - |a|] {
    }
  }

  function HexDigit(d: nat): (c: char)
    requires d < 16
    ensures '0' <= c <= '9' || 'a' <= c <= 'f'
  {
    if d < 10 then ('0' as int + d) as char else ('a' as int + d - 10) as char
  }

  /** The value of a hex digit of either case. */
  function HexValue(c: char): (r: Option<nat>)
    ensures r.Some? ==> r.value < 16
    ensures forall d :: 0 <= d < 16 && c == HexDigit(d) ==> r == Some(d)
  {
    if '0' <= c <= '9' then Some(c as int - '0' as int)
    else if 'a' <= c <= 'f' then Some(c as int - 'a' as int + 10)
    else if 'A' <= c <= 'F' then Some(c as int - 'A' as int + 10)
    else None
  }

  /** Four lower-case hex digits, as Python's `'{0:04x}'`. */
  function Hex4(n: nat): (r: string)
    requires n < 0x10000
    ensures |r| == 4 && Printable(r)
  {
    var m := n % 0x1000;
    var l := m % 0x100;
    [HexDigit(n / 0x1000), HexDigit(m / 0x100), HexDigit(l / 0x10), HexDigit(l % 0x10)]
  }

  /** The number four hex digits spell. */
  function HexQuad(t: string): (r: Option<nat>)
    requires |t| == 4
    ensures r.Some? ==> r.value < 0x10000
  {
    match (HexValue(t[0]), HexValue(t[1]), HexValue(t[2]), HexValue(t[3]))
    case (Some(a), Some(b), Some(c), Some(d)) => Some(a * 0x1000 + b * 0x100 + c * 0x10 + d)
    case _ => None
  }

  lemma HexQuadOf(n: nat)
    requires n < 0x10000
    ensures HexQuad(Hex4(n)) == Some(n)
  {
    var t := Hex4(n);
    var m := n % 0x1000;
    var l := m % 0x100;
    assert n == (n / 0x1000) * 0x1000 + m;
    assert m == (m / 0x100) * 0x100 + l;
    assert l == (l / 0x10) * 0x10 + l % 0x10;
    assert HexValue(t[0]) == Some(n / 0x1000);
    assert HexValue(t[1]) == Some(m / 0x100);
    assert HexValue(t[2]) == Some(l / 0x10);
    assert HexValue(t[3]) == Some(l % 0x10);
  }

  function UnicodeEscape(n: nat): (r: string)
    requires n < 0x10000
    ensures |r| == 6 && Printable(r)
  {
    "\\u" + Hex4(n)
  }

  /** Whether the encoder escapes `c` at all. */
  predicate Escaped(c: char, ensureAscii: bool) {
    c == '"' || c == '\\' || c < ' ' || (ensureAscii && c > '~')
  }

  /** How the encoder writes one character. */
  function EscapeChar(c: char, ensureAscii: bool): (r: string)
    ensures |r| >= 1
    ensures !Escaped(c, ensureAscii) <==> r == [c]
    ensures NoControl(r)
    ensures ensureAscii ==> Printable(r)
  {
    match ShortEscape(c)
    case Some(x) => ['\\', x]
    case None =>
      if c < ' ' || (ensureAscii && c > '~') then
        if c as int < 0x10000 then UnicodeEscape(c as int)
        else UnicodeEscape(Surrogates(c).0) + UnicodeEscape(Surrogates(c).1)
      else [c]
  }

  /** The inside of a JSON string literal as `json.dumps` writes it. */
  function JsonEscape(s: string, ensureAscii: bool): (r: string)
    ensures NoControl(r)
    ensures ensureAscii ==> Printable(r)
    ensures forall k :: 0 <= k < |s| && !Escaped(s[k], ensureAscii) ==> s[k] in r
  {
    if s == [] then ""
    else
      var head := EscapeChar(s[0], ensureAscii);
      var tail := JsonEscape(s[1..], ensureAscii);
      assert forall k :: 1 <= k < |s| ==> s[k] == s[1..][k - 1];
      head + tail
  }

  lemma EscapeOne(c: char, ensureAscii: bool)
    ensures JsonEscape([c], ensureAscii) == EscapeChar(c, ensureAscii)
  {
    assert [c][1..] == [];
  }

  /** "é" (U+00E9) under `ensure_ascii` is written `\u00e9`. */
  lemma EscapeLatinSmallEAcute()
    ensures JsonEscape("\U{E9}", true) == "\\u00e9"
    ensures JsonEscape("\U{E9}", false) == "\U{E9}"
  {
    assert HexDigit(0) == '0' && HexDigit(14) == 'e' && HexDigit(9) == '9';
    assert Hex4(0xE9) == "00e9";
    EscapeOne('\U{E9}', true);
    EscapeOne('\U{E9}', false);
  }

  /** A backspace is written `\b` in either mode, as json.dumps does. */
  lemma EscapeBackspace(ensureAscii: bool)
    ensures JsonEscape("\U{8}", ensureAscii) == "\\b"
  {
    EscapeOne('\U{8}', ensureAscii);
  }

  function Prepend(c: char, rest: Option<string>): Option<string> {
    if rest.None? then None else Some([c] + rest.value)
  }

  /**
   * The character a `\uXXXX` escape at the front of `t` stands for, and the
   * length of the escape: six characters, or twelve for a surrogate pair.
   * A lone surrogate, which no Dafny string holds, gives None.
   */
  function UnicodeAt(t: string): (r: Option<(char, nat)>)
    requires |t| >= 2 && t[0] == '\\' && t[1] == 'u'
    ensures r.Some? ==> r.value.1 == 6 || r.value.1 == 12
    ensures r.Some? ==> r.value.1 <= |t|
  {
    if |t| < 6 then None
    else
      match HexQuad(t[2..6])
      case None => None
      case Some(hi) =>
        if 0xDC00 <= hi < 0xE000 then None
        else if hi < 0xD800 || 0xE000 <= hi then Some((hi as char, 6))
        else if |t| < 12 || t[6] != '\\' || t[7] != 'u' then None
        else
          match HexQuad(t[8..12])
          case None => None
          case Some(lo) => if 0xDC00 <= lo < 0xE000 then Some((Joined(hi, lo), 12)) else None
  }

  /**
   * The characters a string literal's inside stands for: escapes decoded,
   * a surrogate pair joined, anything else kept; None for a malformed escape.
   */
  function Unescape(t: string): (r: Option<string>)
    decreases |t|
  {
    if t == [] then Some([])
    else if t[0] != '\\' then Prepend(t[0], Unescape(t[1..]))
    else if |t| < 2 then None
    else if t[1] != 'u' then
      match Unescaped(t[1])
      case Some(c) => Prepend(c, Unescape(t[2..]))
      case None => None
    else
      match UnicodeAt(t)
      case Some((c, n)) => Prepend(c, Unescape(t[n..]))
      case None => None
  }

  /** The character a surrogate pair stands for. */
  function Joined(hi: nat, lo: nat): char
    requires 0xD800 <= hi < 0xDC00 && 0xDC00 <= lo < 0xE000
  {
    (0x10000 + (hi - 0xD800) * 0x400 + (lo - 0xDC00)) as char
  }

  /** A character with a two-character escape reads back. */
  lemma UnescapeShort(c: char, ensureAscii: bool, rest: string)
    requires ShortEscape(c).Some?
    ensures Unescape(EscapeChar(c, ensureAscii) + rest) == Prepend(c, Unescape(rest))
  {
    var t := EscapeChar(c, ensureAscii) + rest;
    assert t[0] == '\\' && t[1] == ShortEscape(c).value != 'u';
    assert t[2..] == rest;
  }

  /** A character written as one `\uXXXX` escape reads back. */
  lemma UnescapeSingle(c: char, rest: string)
    requires c as int < 0x10000
    ensures Unescape(UnicodeEscape(c as int) + rest) == Prepend(c, Unescape(rest))
  {
    var t := UnicodeEscape(c as int) + rest;
    HexQuadOf(c as int);
    assert t[0] == '\\' && t[1] == 'u';
    assert t[2..6] == Hex4(c as int);
    assert t[6..] == rest;
  }

  /** The surrogate pair of a character above U+FFFF, as the encoder computes it. */
  function Surrogates(c: char): (r: (nat, nat))
    requires c as int >= 0x10000
    ensures 0xD800 <= r.0 < 0xDC00 && 0xDC00 <= r.1 < 0xE000
    ensures 0x10000 + (r.0 - 0xD800) * 0x400 + (r.1 - 0xDC00) == c as int
  {
    // 0xd800 | (n >> 10) and 0xdc00 | (n & 0x3ff) in the source, n below 0x100000
    var n := c as int - 0x10000;
    assert n == (n / 0x400) * 0x400 + n % 0x400;
    (0xD800 + n / 0x400, 0xDC00 + n % 0x400)
  }

  /** A well-formed surrogate pair at the front of a text. */
  lemma UnicodeAtPair(t: string, hi: nat, lo: nat)
    requires 0xD800 <= hi < 0xDC00 && 0xDC00 <= lo < 0xE000
    requires |t| >= 12 && t[0] == '\\' && t[1] == 'u' && t[6] == '\\' && t[7] == 'u'
    requires HexQuad(t[2..6]) == Some(hi) && HexQuad(t[8..12]) == Some(lo)
    ensures UnicodeAt(t) == Some((Joined(hi, lo), 12))
  {
  }

  /** One step of `Unescape` over a `\u` escape. */
  lemma UnescapeUnicodeStep(t: string)
    requires |t| >= 2 && t[0] == '\\' && t[1] == 'u' && UnicodeAt(t).Some?
    ensures Unescape(t) == Prepend(UnicodeAt(t).value.0, Unescape(t[UnicodeAt(t).value.1..]))
  {
  }

  /** A surrogate pair written as two `\uXXXX` escapes reads back as one character. */
  lemma UnescapePair(hi: nat, lo: nat, rest: string)
    requires 0xD800 <= hi < 0xDC00 && 0xDC00 <= lo < 0xE000
    ensures Unescape(UnicodeEscape(hi) + UnicodeEscape(lo) + rest) == Prepend(Joined(hi, lo), Unescape(rest))
  {
    var first, second := UnicodeEscape(hi), UnicodeEscape(lo);
    var t := first + second + rest;
    HexQuadOf(hi);
    HexQuadOf(lo);
    assert t[..6] == first && t[6..12] == second && t[12..] == rest;
    assert t[0] == '\\' && t[1] == 'u';
    assert HexQuad(t[2..6]) == Some(hi) by { assert t[2..6] == first[2..] == Hex4(hi); }
    assert t[6] == second[0] && t[7] == second[1];
    assert HexQuad(t[8..12]) == Some(lo) by { assert t[8..12] == second[2..] == Hex4(lo); }
    UnicodeAtPair(t, hi, lo);
    UnescapeUnicodeStep(t);
  }

  /** Decoding one written character gives it back in front of what follows. */
  lemma UnescapeChar(c: char, ensureAscii: bool, rest: string)
    ensures Unescape(EscapeChar(c, ensureAscii) + rest) == Prepend(c, Unescape(rest))
  {
    if ShortEscape(c).Some? {
      UnescapeShort(c, ensureAscii, rest);
    } else if c < ' ' || (ensureAscii && c > '~') {
      if c as int < 0x10000 {
        UnescapeSingle(c, rest);
      } else {
        UnescapePair(Surrogates(c).0, Surrogates(c).1, rest);
        assert Joined(Surrogates(c).0, Surrogates(c).1) == c;
      }
    } else {
      var t := EscapeChar(c, ensureAscii) + rest;
      assert t[1..] == rest;
    }
  }

  /** Reading the escaped text back gives the string that was written. */
  lemma {:induction false} UnescapeEscape(s: string, ensureAscii: bool)
    ensures Unescape(JsonEscape(s, ensureAscii)) == Some(s)
  {
    if s != [] {
      UnescapeEscape(s[1..], ensureAscii);
      UnescapeChar(s[0], ensureAscii, JsonEscape(s[1..], ensureAscii));
      assert [s[0]] + s[1..] == s;
    }
  }

  /** The two encoders agree exactly on printable ASCII text. */
  lemma {:induction false} EscapeModesAgree(s: string)
    requires Printable(s)
    ensures JsonEscape(s, true) == JsonEscape(s, false)
  {
    if s != [] {
      assert Printable(s[1..]) by {
        forall k | 0 <= k < |s[1..]| ensures ' ' <= s[1..][k] <= '~' {
          assert s[1..][k] == s[k + 1];
        }
      }
      EscapeModesAgree(s[1..]);
    }
  }
}
