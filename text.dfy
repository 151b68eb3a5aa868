/**
 * String operations of Python's `str` and JavaScript's `String` that the
 * modelled code relies on: strip/trim, case mapping, prefix and substring
 * tests, split/join, replace, decimal rendering and parsing.
 * Whitespace is the six ASCII characters both strip() and trim() remove;
 * case mapping is ASCII only.
 */
module Text {
  import opened Wrappers

  /**
   * The six ASCII whitespace characters that Python's `strip()` and
   * JavaScript's `trim()` both remove (Python also removes \x1c to \x1f,
   * and both remove Unicode spaces; those are not modelled).
   */
  predicate IsSpace(c: char) {
    c == ' ' || c == '\t' || c == '\n' || c == '\r' || c == '\U{0B}' || c == '\U{0C}'
  }

  /** Removes leading whitespace. */
  function LStrip(s: string): (r: string)
    ensures |r| <= |s| && r == s[|s| - |r|..]
    ensures r == [] || !IsSpace(r[0])
    ensures forall k :: 0 <= k < |s| - |r| ==> IsSpace(s[k])
  {
    if |s| > 0 && IsSpace(s[0]) then LStrip(s[1..]) else s
  }

  /** Removes trailing whitespace. */
  function RStrip(s: string): (r: string)
    ensures |r| <= |s| && r == s[..|r|]
    ensures r == [] || !IsSpace(r[|r| - 1])
    ensures forall k :: |r| <= k < |s| ==> IsSpace(s[k])
  {
    if |s| > 0 && IsSpace(s[|s| - 1]) then RStrip(s[..|s| - 1]) else s
  }

  /** Python `s.strip()` / JavaScript `s.trim()`. */
  function Strip(s: string): (r: string)
    ensures |r| <= |s|
    ensures r == [] || (!IsSpace(r[0]) && !IsSpace(r[|r| - 1]))
  {
    RStrip(LStrip(s))
  }

  /** A string with no whitespace at either end is its own strip. */
  predicate IsStripped(s: string) {
    s == [] || (!IsSpace(s[0]) && !IsSpace(s[|s| - 1]))
  }

  lemma StripOfStripped(s: string)
    requires IsStripped(s)
    ensures Strip(s) == s
  {
  }

  /** `strip()` is idempotent. */
  lemma StripIdempotent(s: string)
    ensures Strip(Strip(s)) == Strip(s)
  {
    StripOfStripped(Strip(s));
  }

  /** Python `s.rstrip(c)` for a one-character argument. */
  function RStripChar(s: string, c: char): (r: string)
    ensures |r| <= |s| && r == s[..|r|]
    ensures r == [] || r[|r| - 1] != c
    ensures forall k :: |r| <= k < |s| ==> s[k] == c
  {
    if |s| > 0 && s[|s| - 1] == c then RStripChar(s[..|s| - 1], c) else s
  }

  /** Python `s.lstrip(c)` for a one-character argument. */
  function LStripChar(s: string, c: char): (r: string)
    ensures |r| <= |s| && r == s[|s| - |r|..]
    ensures r == [] || r[0] != c
    ensures forall k :: 0 <= k < |s| - |r| ==> s[k] == c
  {
    if |s| > 0 && s[0] == c then LStripChar(s[1..], c) else s
  }

  function LowerChar(c: char): char {
    if 'A' <= c <= 'Z' then (c as int + 32) as char else c
  }

  function UpperChar(c: char): char {
    if 'a' <= c <= 'z' then (c as int - 32) as char else c
  }

  /** Python `lower()` / JavaScript `toLowerCase()`, on ASCII letters. */
  function Lower(s: string): (r: string)
    ensures |r| == |s| && forall k :: 0 <= k < |s| ==> r[k] == LowerChar(s[k])
  {
    seq(|s|, k requires 0 <= k < |s| => LowerChar(s[k]))
  }

  /** Python `upper()`, on ASCII letters. */
  function Upper(s: string): (r: string)
    ensures |r| == |s| && forall k :: 0 <= k < |s| ==> r[k] == UpperChar(s[k])
  {
    seq(|s|, k requires 0 <= k < |s| => UpperChar(s[k]))
  }

  predicate IsLetter(c: char) {
    'a' <= c <= 'z' || 'A' <= c <= 'Z'
  }

  /** Python `capitalize()`: first character upper case, the rest lower case. */
  function Capitalize(s: string): (r: string)
    ensures |r| == |s|
    ensures |s| > 0 ==> r[0] == UpperChar(s[0]) && r[1..] == Lower(s[1..])
  {
    if s == [] then [] else [UpperChar(s[0])] + Lower(s[1..])
  }

  /** `capitalize()` ignores the case of its input and leaves its own output unchanged. */
  lemma CapitalizeCase(s: string)
    ensures Capitalize(Lower(s)) == Capitalize(s)
    ensures Capitalize(Upper(s)) == Capitalize(s)
    ensures Capitalize(Capitalize(s)) == Capitalize(s)
  {
    if s != [] {
      var tail := s[1..];
      assert Lower(s)[1..] == Lower(tail);
      assert Upper(s)[1..] == Upper(tail);
      assert Lower(Lower(tail)) == Lower(tail);
      assert Lower(Upper(tail)) == Lower(tail);
    }
  }

  /**
   * Python `title()`: a letter that follows a letter is lower-cased, any other
   * letter is upper-cased; other characters are kept.
   */
  function Title(s: string): (r: string)
    ensures |r| == |s|
  {
    TitleAfter(s, false)
  }

  /** How `title()` maps one character, given whether a letter precedes it. */
  function TitleChar(c: char, afterLetter: bool): char {
    if !IsLetter(c) then c else if afterLetter then LowerChar(c) else UpperChar(c)
  }

  function TitleAfter(s: string, afterLetter: bool): (r: string)
    ensures |r| == |s|
    ensures forall k :: 0 <= k < |s| ==>
      r[k] == TitleChar(s[k], if k == 0 then afterLetter else IsLetter(s[k - 1]))
  {
    if s == [] then []
    else
      var rest := TitleAfter(s[1..], IsLetter(s[0]));
      assert forall k :: 1 <= k < |s| ==> s[1..][k - 1] == s[k];
      [TitleChar(s[0], afterLetter)] + rest
  }

  predicate StartsWith(s: string, prefix: string) {
    |prefix| <= |s| && s[..|prefix|] == prefix
  }

  predicate EndsWith(s: string, suffix: string) {
    |suffix| <= |s| && s[|s| - |suffix|..] == suffix
  }

  /** Python `sub in s` / JavaScript `s.includes(sub)`. */
  predicate Contains(s: string, sub: string)
    decreases |s|
  {
    StartsWith(s, sub) || (|s| > 0 && Contains(s[1..], sub))
  }

  lemma ContainsAt(s: string, sub: string, i: nat)
    requires i + |sub| <= |s| && s[i..i + |sub|] == sub
    ensures Contains(s, sub)
  {
    if i > 0 {
      assert s[1..][i - 1..i - 1 + |sub|] == sub;
      ContainsAt(s[1..], sub, i - 1);
    }
  }

  /** Number of occurrences of `c` in `s` (Python `s.count(c)`). */
  function CountChar(s: string, c: char): (n: nat)
    ensures n <= |s|
    ensures n == 0 <==> c !in s
  {
    if s == [] then 0 else (if s[0] == c then 1 else 0) + CountChar(s[1..], c)
  }

  /** Counting over a concatenation adds the counts. */
  lemma {:induction false} CountCharAppend(a: string, b: string, c: char)
    ensures CountChar(a + b, c) == CountChar(a, c) + CountChar(b, c)
    decreases |a|
  {
    if a == [] {
      assert a + b == b;
    } else {
      assert (a + b)[0] == a[0] && (a + b)[1..] == a[1..] + b;
      CountCharAppend(a[1..], b, c);
    }
  }

  /** Index of the first occurrence of `c`. */
  function IndexOf(s: string, c: char): (i: nat)
    requires c in s
    ensures i < |s| && s[i] == c && c !in s[..i]
  {
    if s[0] == c then 0 else 1 + IndexOf(s[1..], c)
  }

  /** The position of a character that nothing before it matches is where `IndexOf` stops. */
  lemma {:induction false} IndexOfFirst(s: string, c: char, i: nat)
    requires i < |s| && s[i] == c && c !in s[..i]
    ensures IndexOf(s, c) == i
    decreases i
  {
    if i > 0 {
      assert s[0] != c by { assert s[0] == s[..i][0]; }
      assert s[1..][..i - 1] == s[..i][1..];
      IndexOfFirst(s[1..], c, i - 1);
    }
  }

  /** Python `sep.join(parts)` / JavaScript `parts.join(sep)`. */
  function Join(sep: string, parts: seq<string>): string {
    if |parts| == 0 then ""
    else if |parts| == 1 then parts[0]
    else parts[0] + sep + Join(sep, parts[1..])
  }

  /** Splitting at a first separator peels off the text before it. */
  lemma SplitAtFirst(a: string, b: string, sep: char)
    requires sep !in a
    ensures Split(a + [sep] + b, sep) == [a] + Split(b, sep)
  {
    var s := a + [sep] + b;
    assert s[..|a|] == a;
    IndexOfFirst(s, sep, |a|);
    assert s[|a| + 1..] == b;
  }

  /** Python `s.split(sep)` for a one-character separator. */
  function Split(s: string, sep: char): (r: seq<string>)
    ensures |r| >= 1
    ensures forall k :: 0 <= k < |r| ==> sep !in r[k]
    decreases |s|
  {
    if sep !in s then [s]
    else
      var i := IndexOf(s, sep);
      [s[..i]] + Split(s[i + 1..], sep)
  }

  /** Splitting and joining again with the same separator gives back the input. */
  lemma {:induction false} JoinSplit(s: string, sep: char)
    ensures Join([sep], Split(s, sep)) == s
    decreases |s|
  {
    if sep in s {
      var i := IndexOf(s, sep);
      var rest := Split(s[i + 1..], sep);
      JoinSplit(s[i + 1..], sep);
      assert Split(s, sep) == [s[..i]] + rest;
      assert s == s[..i] + [sep] + s[i + 1..];
    }
  }

  /** The first piece of `s.split(sep)`: the text before the first `sep`. */
  lemma SplitHead(s: string, sep: char)
    ensures Split(s, sep)[0] == if sep in s then s[..IndexOf(s, sep)] else s
  {
  }

  /** Python `s.replace(pat, rep)`: every non-overlapping occurrence, left to right. */
  function Replace(s: string, pat: string, rep: string): (r: string)
    requires |pat| > 0
    decreases |s|
  {
    if |s| < |pat| then s
    else if s[..|pat|] == pat then rep + Replace(s[|pat|..], pat, rep)
    else [s[0]] + Replace(s[1..], pat, rep)
  }

  /** Replacing something that does not occur changes nothing. */
  lemma {:induction false} ReplaceAbsent(s: string, pat: string, rep: string)
    requires |pat| > 0 && !Contains(s, pat)
    ensures Replace(s, pat, rep) == s
    decreases |s|
  {
    if |s| >= |pat| {
      assert s[..|pat|] != pat;
      ReplaceAbsent(s[1..], pat, rep);
    }
  }

  /** Python `s.replace(a, b)` for single characters. */
  function ReplaceChar(s: string, a: char, b: char): (r: string)
    ensures |r| == |s| && forall k :: 0 <= k < |s| ==> r[k] == (if s[k] == a then b else s[k])
  {
    seq(|s|, k requires 0 <= k < |s| => if s[k] == a then b else s[k])
  }

  predicate IsDigit(c: char) {
    '0' <= c <= '9'
  }

  /** Python `s.isdigit()` on ASCII: non-empty and all digits. */
  predicate AllDigits(s: string) {
    |s| > 0 && forall k :: 0 <= k < |s| ==> IsDigit(s[k])
  }

  function DigitChar(d: nat): char
    requires d < 10
  {
    ('0' as int + d) as char
  }

  function DigitValue(c: char): nat
    requires IsDigit(c)
  {
    c as int - '0' as int
  }

  /** Decimal rendering of a natural number, without leading zeros. */
  function NatToString(n: nat): (r: string)
    ensures AllDigits(r)
    ensures n > 0 ==> r[0] != '0'
    decreases n
  {
    if n < 10 then [DigitChar(n)] else NatToString(n / 10) + [DigitChar(n % 10)]
  }

  /** Python `str(i)` for an integer. */
  function IntToString(i: int): string {
    if i < 0 then "-" + NatToString(-i) else NatToString(i)
  }

  /** The value of a run of decimal digits. */
  function DigitsValue(ds: string): nat
    requires forall k :: 0 <= k < |ds| ==> IsDigit(ds[k])
  {
    if ds == [] then 0 else DigitsValue(ds[..|ds| - 1]) * 10 + DigitValue(ds[|ds| - 1])
  }

  lemma {:induction false} DigitsValueOfNat(n: nat)
    ensures DigitsValue(NatToString(n)) == n
    decreases n
  {
    if n >= 10 {
      DigitsValueOfNat(n / 10);
      var s := NatToString(n);
      assert s[..|s| - 1] == NatToString(n / 10);
    }
  }

  /**
   * A decimal literal as Python's `int()` reads it: digits, where a single
   * underscore may stand between two digits ("1_000").
   */
  predicate DigitGroups(s: string) {
    && |s| > 0 && IsDigit(s[0]) && IsDigit(s[|s| - 1])
    && (forall k :: 0 <= k < |s| ==> IsDigit(s[k]) || s[k] == '_')
    && (forall k :: 0 <= k < |s| - 1 && s[k] == '_' ==> IsDigit(s[k + 1]))
  }

  /** The digits of a literal, its underscores removed. */
  function Ungrouped(s: string): (r: string)
    requires forall k :: 0 <= k < |s| ==> IsDigit(s[k]) || s[k] == '_'
    ensures |r| <= |s|
    ensures forall k :: 0 <= k < |r| ==> IsDigit(r[k])
  {
    if s == [] then []
    else (if s[0] == '_' then [] else [s[0]]) + Ungrouped(s[1..])
  }

  /** A run of plain digits has nothing to remove. */
  lemma {:induction false} UngroupedDigits(s: string)
    requires AllDigits(s) || s == []
    ensures Ungrouped(s) == s
  {
    if s != [] {
      if |s| > 1 {
        UngroupedDigits(s[1..]);
      }
    }
  }

  /** Python `int(s)` on a string: surrounding whitespace, an optional sign, decimal digits with single underscores between them. */
  function ParseInt(s: string): (r: Option<int>)
    ensures r.Some? ==> |Strip(s)| > 0
  {
    var t := Strip(s);
    if t == [] then None
    else if t[0] == '-' || t[0] == '+' then
      var ds := t[1..];
      if DigitGroups(ds) then
        var v: int := DigitsValue(Ungrouped(ds));
        Some(if t[0] == '-' then -v else v)
      else None
    else if DigitGroups(t) then Some(DigitsValue(Ungrouped(t)))
    else None
  }

  /** `int("1_000")` is 1000. */
  lemma ParseIntGrouped()
    ensures ParseInt("1_000") == Some(1000)
  {
    var t := "1_000";
    StripOfStripped(t);
    assert DigitGroups(t);
    assert Ungrouped(t) == "1000" by {
      assert t[1..] == "_000" && "_000"[1..] == "000";
      UngroupedDigits("000");
    }
    assert DigitsValue("1000") == 1000 by {
      assert "1000"[..3] == "100" && "100"[..2] == "10" && "10"[..1] == "1";
    }
  }

  /** A doubled underscore is not a literal, so `int("1__0")` raises. */
  lemma ParseIntDoubledUnderscore()
    ensures ParseInt("1__0").None?
  {
    var t := "1__0";
    StripOfStripped(t);
    assert t[1] == '_' && t[2] == '_';
    assert !DigitGroups(t);
  }

  /** A run of plain digits is a literal of its own value. */
  lemma DigitsAreGroups(s: string)
    requires AllDigits(s)
    ensures DigitGroups(s) && Ungrouped(s) == s
  {
    UngroupedDigits(s);
  }

  lemma ParseIntOfNat(n: nat)
    ensures ParseInt(NatToString(n)) == Some(n)
  {
    var s := NatToString(n);
    StripOfStripped(s);
    assert Strip(s) == s;
    assert s[0] != '-' && s[0] != '+';
    DigitsAreGroups(s);
    DigitsValueOfNat(n);
    assert DigitsValue(Ungrouped(s)) == n;
  }

  lemma ParseIntOfNegative(n: nat)
    requires n > 0
    ensures ParseInt("-" + NatToString(n)) == Some(-(n as int))
  {
    var s := "-" + NatToString(n);
    StripOfStripped(s);
    assert Strip(s) == s;
    assert s[1..] == NatToString(n);
    DigitsAreGroups(s[1..]);
    DigitsValueOfNat(n);
    assert DigitsValue(Ungrouped(s[1..])) == n;
  }

  /** Left-pads with zeros to at least `width` characters (Python `f"{n:0Wd}"` for n >= 0). */
  function ZeroPad(n: nat, width: nat): (r: string)
    ensures |r| >= width
    ensures AllDigits(r)
  {
    var digits := NatToString(n);
    if |digits| >= width then digits else seq(width - |digits|, _ => '0') + digits
  }

  lemma ZeroPadValue(n: nat, width: nat)
    ensures DigitsValue(ZeroPad(n, width)) == n
  {
    DigitsValueOfNat(n);
    var digits := NatToString(n);
    if |digits| < width {
      LeadingZeros(width - |digits|, digits);
    }
  }

  lemma {:induction false} LeadingZeros(k: nat, ds: string)
    requires forall j :: 0 <= j < |ds| ==> IsDigit(ds[j])
    ensures var z := seq(k, _ => '0') + ds;
            (forall j :: 0 <= j < |z| ==> IsDigit(z[j])) && DigitsValue(z) == DigitsValue(ds)
    decreases |ds|
  {
    var z := seq(k, _ => '0') + ds;
    if ds == [] {
      assert z == seq(k, _ => '0');
      AllZeros(k);
    } else {
      LeadingZeros(k, ds[..|ds| - 1]);
      assert z[..|z| - 1] == seq(k, _ => '0') + ds[..|ds| - 1];
    }
  }

  lemma {:induction false} AllZeros(k: nat)
    ensures DigitsValue(seq(k, _ => '0')) == 0
  {
    if k > 0 {
      var z := seq(k, _ => '0');
      assert z[..k - 1] == seq(k - 1, _ => '0');
      AllZeros(k - 1);
    }
  }

  function Pow10(k: nat): (p: nat)
    ensures p >= 1
  {
    if k == 0 then 1 else 10 * Pow10(k - 1)
  }

  /** A number below 10^k has at most k decimal digits. */
  lemma {:induction false} NatToStringLength(n: nat, k: nat)
    requires k >= 1 && n < Pow10(k)
    ensures |NatToString(n)| <= k
    decreases k
  {
    if n >= 10 {
      NatToStringLength(n / 10, k - 1);
    }
  }

  /** Zero-padding a number below 10^width yields exactly `width` digits. */
  lemma ZeroPadWidth(n: nat, width: nat)
    requires width >= 1 && n < Pow10(width)
    ensures |ZeroPad(n, width)| == width
  {
    NatToStringLength(n, width);
  }

  /** Python `s.ljust(width, c)`. */
  function LJust(s: string, width: nat, c: char): (r: string)
    ensures |r| == if |s| < width then width else |s|
    ensures r[..|s|] == s && forall k :: |s| <= k < |r| ==> r[k] == c
  {
    if |s| < width then s + seq(width - |s|, _ => c) else s
  }

  /** The value of a digit run followed by another: shift left, then add. */
  lemma {:induction false} DigitsValueAppend(a: string, b: string)
    requires forall k :: 0 <= k < |a| ==> IsDigit(a[k])
    requires forall k :: 0 <= k < |b| ==> IsDigit(b[k])
    ensures forall k :: 0 <= k < |a + b| ==> IsDigit((a + b)[k])
    ensures DigitsValue(a + b) == DigitsValue(a) * Pow10(|b|) + DigitsValue(b)
    decreases |b|
  {
    if b == [] {
      assert a + b == a;
    } else {
      var b' := b[..|b| - 1];
      DigitsValueAppend(a, b');
      assert (a + b)[..|a + b| - 1] == a + b';
      assert DigitsValue(a) * Pow10(|b|) == DigitsValue(a) * Pow10(|b'|) * 10;
    }
  }
}
