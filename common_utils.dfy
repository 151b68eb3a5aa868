/**
 * Helpers of `api/utils/common_utils.py`: the emptiness test, the AES block
 * padding applied before encryption, and the conversion between the
 * SecMaster time stamp `YYYY-MM-DDTHH:mm:ss.SSSZ+HHmm` and UTC date-times.
 */
module CommonUtils {
  import opened Wrappers
  import opened Text
  import opened Values
  import opened Calendar
  import opened Seqs

  /** `is_empty(val)`: only None and the empty string are empty. */
  predicate IsEmpty(v: Value) {
    v == Null || v == Str("")
  }

  /** `is_empty` is stricter than falsiness: 0, False, [] and {} are falsy but not empty. */
  lemma IsEmptyVersusFalsy(v: Value)
    ensures IsEmpty(v) ==> !PyTruthy(v)
    ensures !PyTruthy(v) && !IsEmpty(v) <==> v in {Bool(false), Int(0), List([]), Dict([])}
  {
  }

  type Byte = b: int | 0 <= b < 256

  /** UTF-8 encoding of one Unicode scalar value. */
  function Utf8Char(c: char): (bs: seq<Byte>)
    ensures 1 <= |bs| <= 4
  {
    var cp := c as int;
    if cp < 0x80 then [cp]
    else if cp < 0x800 then [0xC0 + cp / 64, 0x80 + cp % 64]
    else if cp < 0x10000 then [0xE0 + cp / 4096, 0x80 + cp / 64 % 64, 0x80 + cp % 64]
    else [0xF0 + cp / 262144, 0x80 + cp / 4096 % 64, 0x80 + cp / 64 % 64, 0x80 + cp % 64]
  }

  /** Python `text.encode('utf-8')`: the encodings of the characters, in order. */
  function Utf8(s: string): seq<Byte> {
    FlatMap(Utf8Char, s)
  }

  lemma {:induction false} Utf8Nuls(k: nat)
    ensures Utf8(seq(k, _ => '\0')) == seq(k, _ => 0)
  {
    if k > 0 {
      var nuls := seq(k, _ => '\0');
      assert nuls == nuls[..k - 1] + ['\0'];
      assert nuls[..k - 1] == seq(k - 1, _ => '\0');
      Utf8Nuls(k - 1);
      FlatMapSnoc(Utf8Char, nuls[..k - 1], '\0');
    }
  }

  /**
   * `add_to_16(text)`: appends NUL characters until the UTF-8 encoding fills
   * whole 16-byte AES blocks, and returns that encoding.
   */
  function AddTo16(text: string): (r: seq<Byte>)
    ensures |Utf8(text)| <= |r| < |Utf8(text)| + 16
    ensures |r| % 16 == 0
    ensures r[..|Utf8(text)|] == Utf8(text)
    ensures forall k :: |Utf8(text)| <= k < |r| ==> r[k] == 0
  {
    var n := |Utf8(text)|;
    var add := if n % 16 != 0 then 16 - n % 16 else 0;
    var nuls := seq(add, _ => '\0');
    FlatMapAppend(Utf8Char, text, nuls);
    Utf8Nuls(add);
    var r := Utf8(text + nuls);
    assert r == Utf8(text) + seq(add, _ => 0);
    r
  }

  /** The groups of the time-stamp pattern, as matched at the start of the input. */
  datatype StampMatch = StampMatch(datePart: string, fraction: Option<string>, sign: char, tzHours: string, tzMinutes: string)

  predicate DigitsAt(s: string, i: nat, n: nat) {
    i + n <= |s| && forall k :: i <= k < i + n ==> IsDigit(s[k])
  }

  /** `\d{4}-\d{2}-\d{2}T\d{2}:\d{2}:\d{2}` at the start of `s`. */
  predicate DatePartAt(s: string) {
    |s| >= 19 && DigitsAt(s, 0, 4) && s[4] == '-' && DigitsAt(s, 5, 2) && s[7] == '-' && DigitsAt(s, 8, 2)
    && s[10] == 'T' && DigitsAt(s, 11, 2) && s[13] == ':' && DigitsAt(s, 14, 2) && s[16] == ':' && DigitsAt(s, 17, 2)
  }

  /** Length of the run of digits at the start of `s`, stopping at `max`. */
  function DigitRun(s: string, max: nat): (n: nat)
    ensures n <= max && n <= |s| && DigitsAt(s, 0, n)
    ensures n < max && n < |s| ==> !IsDigit(s[n])
  {
    if max == 0 || s == [] || !IsDigit(s[0]) then 0
    else
      var rest := DigitRun(s[1..], max - 1);
      assert forall k :: 1 <= k < 1 + rest ==> s[k] == s[1..][k - 1];
      1 + rest
  }

  /**
   * `re.match(r'(\d{4}-\d{2}-\d{2}T\d{2}:\d{2}:\d{2})(?:\.(\d{1,6}))?Z([+-])(\d{2})(\d{2})', s)`.
   * The optional fraction takes the longest digit run (at most 6) that a 'Z' follows;
   * a shorter run can never be followed by 'Z', so no other split can match.
   */
  function MatchStamp(s: string): (r: Option<StampMatch>)
    ensures r.Some? ==> |r.value.datePart| == 19 && DatePartAt(r.value.datePart) && r.value.sign in {'+', '-'}
    ensures r.Some? ==> AllDigits(r.value.tzHours) && |r.value.tzHours| == 2
    ensures r.Some? ==> AllDigits(r.value.tzMinutes) && |r.value.tzMinutes| == 2
    ensures r.Some? && r.value.fraction.Some? ==> AllDigits(r.value.fraction.value) && |r.value.fraction.value| <= 6
  {
    if !DatePartAt(s) then None
    else
      var k := if |s| > 20 then DigitRun(s[20..], 6) else 0;
      var fractionEnd := if |s| > 19 && s[19] == '.' && k >= 1 && 20 + k < |s| && s[20 + k] == 'Z' then 20 + k else 19;
      var fraction := if fractionEnd > 19 then Some(s[20..fractionEnd]) else None;
      assert fraction.Some? ==> forall j :: 0 <= j < k ==> s[20..fractionEnd][j] == s[20..][j];
      if fractionEnd + 6 <= |s| && s[fractionEnd] == 'Z' && s[fractionEnd + 1] in {'+', '-'}
         && DigitsAt(s, fractionEnd + 2, 4) then
        var hh := s[fractionEnd + 2..fractionEnd + 4];
        var mm := s[fractionEnd + 4..fractionEnd + 6];
        assert forall j :: 0 <= j < 2 ==> hh[j] == s[fractionEnd + 2 + j] && mm[j] == s[fractionEnd + 4 + j];
        Some(StampMatch(s[..19], fraction, s[fractionEnd + 1], hh, mm))
      else None
  }

  /** What `parse_datetime_with_timezone` does with its input. */
  datatype ParseOutcome =
    | Parsed(dt: DateTime)           // an aware UTC datetime
    | NoValue                        // returns None
    | IsoFallback(isoText: string)   // delegated to `datetime.fromisoformat` on this text
    | OverflowRaised                 // the UTC shift leaves the representable range

  /** The fraction after `ljust`: up to 3 digits padded to 3, longer ones cut and padded to 6. */
  function NormalizeFraction(f: string): (r: string)
    ensures |f| <= 3 ==> |r| == 3 && r[..|f|] == f
    ensures |f| > 3 ==> |r| == 6 && (|f| <= 6 ==> r[..|f|] == f)
  {
    if |f| <= 3 then LJust(f, 3, '0') else LJust(if |f| > 6 then f[..6] else f, 6, '0')
  }

  /** `strptime(date_part + "." + fraction, '%Y-%m-%dT%H:%M:%S.%f')`, or None on ValueError. */
  function StrpTime(datePart: string, fraction: string): (r: Option<DateTime>)
    requires DatePartAt(datePart) && AllDigits(fraction) && |fraction| <= 6
    ensures r.Some? ==> ValidDateTime(r.value) && r.value.offset.None?
  {
    var year := DigitsValue(datePart[0..4]);
    var month := DigitsValue(datePart[5..7]);
    var day := DigitsValue(datePart[8..10]);
    var hour := DigitsValue(datePart[11..13]);
    var minute := DigitsValue(datePart[14..16]);
    var second := DigitsValue(datePart[17..19]);
    var micro := DigitsValue(LJust(fraction, 6, '0'));
    assert year < 10000 by { DigitsBound(datePart[0..4]); }
    assert micro < 1000000 by { DigitsBound(LJust(fraction, 6, '0')); }
    if 1 <= year && 1 <= month <= 12 && 1 <= day <= DaysInMonth(year, month) && hour < 24 && minute < 60 && second < 60
    then Some(DateTime(Date(year, month, day), hour, minute, second, micro, None))
    else None
  }

  lemma {:induction false} DigitsBound(ds: string)
    requires forall k :: 0 <= k < |ds| ==> IsDigit(ds[k])
    ensures DigitsValue(ds) < Pow10(|ds|)
    decreases |ds|
  {
    if ds != [] {
      DigitsBound(ds[..|ds| - 1]);
    }
  }

  /** `parse_datetime_with_timezone(date_str)`. */
  function ParseDateTimeWithTimezone(dateStr: Option<string>): (r: ParseOutcome)
    ensures dateStr.None? || dateStr == Some("") ==> r == NoValue
    ensures r.Parsed? ==> ValidDateTime(r.dt) && r.dt.offset == Some(0)
  {
    if dateStr.None? || dateStr.value == "" then NoValue
    else
      var s := dateStr.value;
      match MatchStamp(s)
      case None => IsoFallback(Replace(s, "Z", "+00:00"))
      case Some(m) => ParseMatch(m)
  }

  /**
   * The rest of `parse_datetime_with_timezone` once the pattern matched with
   * groups `m`: when the local part is a valid date-time, the result is that
   * local time minus the signed offset, tagged UTC, and only a shift past
   * the representable range raises.
   */
  function ParseMatch(m: StampMatch): (r: ParseOutcome)
    requires DatePartAt(m.datePart) && AllDigits(m.tzHours) && AllDigits(m.tzMinutes)
    requires m.fraction.Some? ==> AllDigits(m.fraction.value) && |m.fraction.value| <= 6
    ensures r.Parsed? ==> ValidDateTime(r.dt) && r.dt.offset == Some(0)
    ensures r.Parsed? || r == NoValue || r == OverflowRaised
    ensures var local := StrpTime(m.datePart, NormalizeFraction(m.fraction.GetOr("0")));
            && (local.None? ==> r == NoValue)
            && (local.Some? ==> (r.Parsed? <==> 0 <= WallMicros(local.value) - OffsetMinutes(m) * MicrosPerMinute < MicrosCount()))
            && (local.Some? && r.Parsed? ==> WallMicros(r.dt) == WallMicros(local.value) - OffsetMinutes(m) * MicrosPerMinute)
            && (local.Some? && !r.Parsed? ==> r == OverflowRaised)
  {
    var fraction := NormalizeFraction(m.fraction.GetOr("0"));
    match StrpTime(m.datePart, fraction)
    case None => NoValue
    case Some(local) =>
      match Shift(local, -OffsetMinutes(m) * MicrosPerMinute)
      case None => OverflowRaised
      case Some(utc) => Parsed(utc.(offset := Some(0)))
  }

  /** The signed offset `(HH * 60 + mm) * (+1 or -1)` in minutes. */
  function OffsetMinutes(m: StampMatch): int
    requires AllDigits(m.tzHours) && AllDigits(m.tzMinutes)
  {
    (DigitsValue(m.tzHours) * 60 + DigitsValue(m.tzMinutes)) * (if m.sign == '+' then 1 else -1)
  }

  /** The fraction padded to six places is its digits followed by zeros. */
  lemma PaddedFraction(f: string)
    requires |f| <= 6
    ensures var padded := LJust(NormalizeFraction(f), 6, '0');
            |padded| == 6 && padded[..|f|] == f && forall j :: |f| <= j < 6 ==> padded[j] == '0'
  {
    var normalized := NormalizeFraction(f);
    var padded := LJust(normalized, 6, '0');
    assert padded[..|f|] == f by {
      assert padded[..|normalized|] == normalized && normalized[..|f|] == f;
    }
  }

  /** The microsecond field read from a fraction of `n` digits is its value times 10^(6-n). */
  lemma FractionMicros(f: string)
    requires AllDigits(f) && |f| <= 6
    ensures var micro := DigitsValue(LJust(NormalizeFraction(f), 6, '0'));
            micro == DigitsValue(f) * Pow10(6 - |f|)
  {
    var padded := LJust(NormalizeFraction(f), 6, '0');
    PaddedFraction(f);
    var zeros := padded[|f|..];
    assert padded == f + zeros;
    ZerosValue(zeros);
    DigitsValueAppend(f, zeros);
  }

  lemma {:induction false} ZerosValue(z: string)
    requires forall j :: 0 <= j < |z| ==> z[j] == '0'
    ensures DigitsValue(z) == 0
    decreases |z|
  {
    if z != [] {
      ZerosValue(z[..|z| - 1]);
    }
  }

  lemma DoubleZero()
    ensures AllDigits("00") && DigitsValue("00") == 0
  {
    ZerosValue("00");
  }

  datatype Raised = OverflowError

  /** `strftime('%Y-%m-%dT%H:%M:%S')`, with the year zero-padded to four digits. */
  function DatePartString(t: DateTime): (r: string)
    requires ValidDateTime(t)
    ensures |r| == 19 && DatePartAt(r)
    ensures DigitsValue(r[0..4]) == t.date.year && DigitsValue(r[5..7]) == t.date.month
    ensures DigitsValue(r[8..10]) == t.date.day && DigitsValue(r[11..13]) == t.hour
    ensures DigitsValue(r[14..16]) == t.minute && DigitsValue(r[17..19]) == t.second
  {
    var y := ZeroPad(t.date.year, 4);
    var mo := ZeroPad(t.date.month, 2);
    var d := ZeroPad(t.date.day, 2);
    var h := ZeroPad(t.hour, 2);
    var mi := ZeroPad(t.minute, 2);
    var se := ZeroPad(t.second, 2);
    FieldDigits(t);
    StampLayout(y, mo, d, h, mi, se);
    y + "-" + mo + "-" + d + "T" + h + ":" + mi + ":" + se
  }

  /** Where each field sits in `YYYY-MM-DDTHH:MM:SS` built from its parts. */
  lemma StampLayout(y: string, mo: string, d: string, h: string, mi: string, se: string)
    requires |y| == 4 && |mo| == 2 && |d| == 2 && |h| == 2 && |mi| == 2 && |se| == 2
    requires AllDigits(y) && AllDigits(mo) && AllDigits(d) && AllDigits(h) && AllDigits(mi) && AllDigits(se)
    ensures var r := y + "-" + mo + "-" + d + "T" + h + ":" + mi + ":" + se;
            |r| == 19 && DatePartAt(r)
            && r[0..4] == y && r[5..7] == mo && r[8..10] == d && r[11..13] == h && r[14..16] == mi && r[17..19] == se
  {
    var r := y + "-" + mo + "-" + d + "T" + h + ":" + mi + ":" + se;
    assert r[0..4] == y && r[5..7] == mo && r[8..10] == d;
    assert r[11..13] == h && r[14..16] == mi && r[17..19] == se;
    assert r[4] == '-' && r[7] == '-' && r[10] == 'T' && r[13] == ':' && r[16] == ':';
  }

  lemma FieldDigits(t: DateTime)
    requires ValidDateTime(t)
    ensures |ZeroPad(t.date.year, 4)| == 4 && DigitsValue(ZeroPad(t.date.year, 4)) == t.date.year
    ensures |ZeroPad(t.date.month, 2)| == 2 && DigitsValue(ZeroPad(t.date.month, 2)) == t.date.month
    ensures |ZeroPad(t.date.day, 2)| == 2 && DigitsValue(ZeroPad(t.date.day, 2)) == t.date.day
    ensures |ZeroPad(t.hour, 2)| == 2 && DigitsValue(ZeroPad(t.hour, 2)) == t.hour
    ensures |ZeroPad(t.minute, 2)| == 2 && DigitsValue(ZeroPad(t.minute, 2)) == t.minute
    ensures |ZeroPad(t.second, 2)| == 2 && DigitsValue(ZeroPad(t.second, 2)) == t.second
  {
    assert Pow10(2) == 100 && Pow10(4) == 10000;
    ZeroPadWidth(t.date.year, 4);
    ZeroPadWidth(t.date.month, 2);
    ZeroPadWidth(t.date.day, 2);
    ZeroPadWidth(t.hour, 2);
    ZeroPadWidth(t.minute, 2);
    ZeroPadWidth(t.second, 2);
    ZeroPadValue(t.date.year, 4);
    ZeroPadValue(t.date.month, 2);
    ZeroPadValue(t.date.day, 2);
    ZeroPadValue(t.hour, 2);
    ZeroPadValue(t.minute, 2);
    ZeroPadValue(t.second, 2);
  }

  /** The database form `YYYY-MM-DDTHH:mm:ss.SSSZ+0000` of a UTC date-time. */
  function DbString(t: DateTime): (r: string)
    requires ValidDateTime(t)
    ensures |r| == 29 && r[..19] == DatePartString(t) && r[19] == '.'
    ensures AllDigits(r[20..23]) && DigitsValue(r[20..23]) == t.micro / 1000
    ensures r[23..] == "Z+0000"
  {
    assert Pow10(3) == 1000;
    ZeroPadWidth(t.micro / 1000, 3);
    ZeroPadValue(t.micro / 1000, 3);
    var r := DatePartString(t) + "." + ZeroPad(t.micro / 1000, 3) + "Z+0000";
    assert r[20..23] == ZeroPad(t.micro / 1000, 3);
    r
  }

  /** The same instant in UTC (`astimezone(timezone.utc)`); a naive value is taken as UTC. */
  function ToUtc(t: DateTime): (r: Result<DateTime, Raised>)
    requires ValidDateTime(t)
    ensures r.Ok? ==> ValidDateTime(r.value) && r.value.offset == Some(0)
    ensures t.offset.None? || t.offset == Some(0) ==> r == Ok(t.(offset := Some(0)))
    ensures r.Ok? && t.offset.Some? ==> WallMicros(r.value) == WallMicros(t) - t.offset.value * MicrosPerMinute
  {
    match t.offset
    case None => Ok(t.(offset := Some(0)))
    case Some(o) =>
      if o == 0 then Ok(t)
      else
        match Shift(t, -o * MicrosPerMinute)
        case None => Err(OverflowError)
        case Some(u) => Ok(u.(offset := Some(0)))
  }

  /** `format_utc_datetime_to_db_string(dt)`. */
  function FormatUtcDateTimeToDbString(dt: Option<DateTime>): (r: Result<Option<string>, Raised>)
    requires dt.Some? ==> ValidDateTime(dt.value)
    ensures dt.None? ==> r == Ok(None)
    ensures dt.Some? && r.Ok? ==> r.value.Some? && |r.value.value| == 29 && r.value.value[23..] == "Z+0000"
  {
    match dt
    case None => Ok(None)
    case Some(t) =>
      match ToUtc(t)
      case Err(e) => Err(e)
      case Ok(u) => Ok(Some(DbString(u)))
  }

  /** The date-time with its microseconds cut to whole milliseconds. */
  function TruncateToMillis(t: DateTime): DateTime {
    t.(micro := t.micro / 1000 * 1000)
  }

  lemma DatePartPrefix(s: string, p: string)
    requires |p| == 19 && DatePartAt(p) && |s| >= 19 && s[..19] == p
    ensures DatePartAt(s)
  {
    assert forall j :: 0 <= j < 19 ==> s[j] == p[j];
  }

  /** Matching the pattern against `date "." ms "Z+0000"` finds the date part and the three digits. */
  lemma MatchLayout(p: string, ms: string)
    requires |p| == 19 && DatePartAt(p) && |ms| == 3 && AllDigits(ms)
    ensures MatchStamp(p + "." + ms + "Z+0000") == Some(StampMatch(p, Some(ms), '+', "00", "00"))
  {
    var s := p + "." + ms + "Z+0000";
    assert s[..19] == p && s[19] == '.' && s[20..23] == ms;
    DatePartPrefix(s, p);
    var tail := s[20..];
    assert tail[..3] == ms && tail[3] == 'Z';
    assert DigitRun(tail, 6) == 3;
    assert s[23] == 'Z' && s[24] == '+' && s[25..27] == "00" && s[27..29] == "00";
    assert DigitsAt(s, 25, 4);
  }

  /** Matching the pattern against a database string finds its date part and millisecond fraction. */
  lemma MatchDbString(t: DateTime)
    requires ValidDateTime(t)
    ensures MatchStamp(DbString(t)) == Some(DbMatch(t))
  {
    assert Pow10(3) == 1000;
    ZeroPadWidth(t.micro / 1000, 3);
    var ms := ZeroPad(t.micro / 1000, 3);
    assert DbString(t) == DatePartString(t) + "." + ms + "Z+0000";
    MatchLayout(DatePartString(t), ms);
  }

  /** Reading the fields of a database string back gives the date-time truncated to milliseconds. */
  lemma StrpTimeDbString(t: DateTime)
    requires ValidDateTime(t)
    ensures var s := DbString(t);
            NormalizeFraction(s[20..23]) == s[20..23]
            && StrpTime(DatePartString(t), s[20..23]) == Some(TruncateToMillis(t).(offset := None))
  {
    var s := DbString(t);
    var ms := s[20..23];
    assert LJust(ms, 3, '0') == ms;
    FractionMicros(ms);
    assert Pow10(3) == 1000;
    assert DigitsValue(LJust(ms, 6, '0')) == t.micro / 1000 * 1000;
  }

  /** With a zero offset the local date-time is the result, tagged UTC. */
  lemma ParseOfMatch(m: StampMatch, local: DateTime)
    requires DatePartAt(m.datePart) && AllDigits(m.tzHours) && AllDigits(m.tzMinutes)
    requires m.fraction.Some? ==> AllDigits(m.fraction.value) && |m.fraction.value| <= 6
    requires StrpTime(m.datePart, NormalizeFraction(m.fraction.GetOr("0"))) == Some(local)
    requires OffsetMinutes(m) == 0
    ensures ParseMatch(m) == Parsed(local.(offset := Some(0)))
  {
    assert -OffsetMinutes(m) * MicrosPerMinute == 0;
    ShiftZero(local);
  }

  /** The groups the pattern finds in the database string of `u`. */
  function DbMatch(u: DateTime): StampMatch
    requires ValidDateTime(u)
  {
    StampMatch(DatePartString(u), Some(DbString(u)[20..23]), '+', "00", "00")
  }

  /** The groups of a database string parse back to its date-time truncated to milliseconds. */
  lemma ParseDbMatch(u: DateTime)
    requires ValidDateTime(u)
    ensures ParseMatch(DbMatch(u)) == Parsed(TruncateToMillis(u).(offset := Some(0)))
  {
    DoubleZero();
    var m := DbMatch(u);
    StrpTimeDbString(u);
    assert OffsetMinutes(m) == 0;
    ParseOfMatch(m, TruncateToMillis(u).(offset := None));
  }

  /** Parsing the database string of a date-time gives it back, truncated to milliseconds. */
  lemma ParseDbString(u: DateTime)
    requires ValidDateTime(u)
    ensures ParseDateTimeWithTimezone(Some(DbString(u))) == Parsed(TruncateToMillis(u).(offset := Some(0)))
  {
    MatchDbString(u);
    DoubleZero();
    assert ParseDateTimeWithTimezone(Some(DbString(u))) == ParseMatch(DbMatch(u));
    ParseDbMatch(u);
  }

  /** Parsing a formatted UTC date-time gives it back, truncated to milliseconds. */
  lemma ParseFormatRoundTrip(t: DateTime)
    requires ValidDateTime(t) && (t.offset.None? || t.offset == Some(0))
    ensures FormatUtcDateTimeToDbString(Some(t)).Ok?
    ensures var s := FormatUtcDateTimeToDbString(Some(t)).value.value;
            ParseDateTimeWithTimezone(Some(s)) == Parsed(TruncateToMillis(t).(offset := Some(0)))
  {
    var u := t.(offset := Some(0));
    assert FormatUtcDateTimeToDbString(Some(t)) == Ok(Some(DbString(u)));
    ParseDbString(u);
    assert TruncateToMillis(u).(offset := Some(0)) == TruncateToMillis(t).(offset := Some(0));
  }
}
