/**
 * The timestamp cell of `format_response`: `created_at` goes through
 * `datetime.fromisoformat` (after every `Z` is replaced by `+00:00`) and is
 * re-rendered with `strftime('%Y-%m-%d %H:%M')`; a string that does not
 * parse keeps its first 16 characters.
 *
 * The parser is the grammar CPython 3.7 to 3.10 accept in their C
 * implementation: `YYYY-MM-DD`, then, when there is more, one separator
 * character of any kind and a time `HH[:MM[:SS[.fff|.ffffff]]]` with an
 * optional offset `+HH:MM[:SS[.ffffff]]`. The C code reads a NUL after the
 * last character, which `CharAt` reproduces, and it works on UTF-8 bytes,
 * so a non-ASCII character in the time part never parses.
 */
module Timestamps {
  import opened Strings
  import opened Runtime

  datatype DateTime = DateTime(year: nat, month: nat, day: nat, hour: nat, minute: nat, second: nat, microsecond: nat)

  /** The character at `k`, or the terminating NUL past the end. */
  function CharAt(s: string, k: nat): char {
    if k < |s| then s[k] else '\0'
  }

  function DigitValue(c: char): (d: nat)
    requires IsDigit(c)
    ensures d < 10 && DigitChar(d) == c
  {
    c as int - '0' as int
  }

  /** `parse_digits`: `n` decimal digits starting at `p`. */
  function ParseDigits(s: string, p: nat, n: nat): (r: Option<nat>)
    ensures r.Some? ==> forall k :: p <= k < p + n ==> k < |s| && IsDigit(s[k])
    decreases n
  {
    if n == 0 then Some(0)
    else match ParseDigits(s, p, n - 1)
      case None => None
      case Some(v) =>
        var c := CharAt(s, p + n - 1);
        if IsDigit(c) then Some(10 * v + DigitValue(c)) else None
  }

  /** The fields of a clock text, and whether the C parser reported "more text follows". */
  datatype Clock = Clock(hour: nat, minute: nat, second: nat, microsecond: nat, trailing: bool)

  /** The `.fff` or `.ffffff` tail: exactly three or six digits up to `end`. */
  function ParseFraction(s: string, p: nat, end: nat, hour: nat, minute: nat, second: nat): (r: Option<Clock>)
    ensures r.Some? ==> r.value.hour == hour && r.value.minute == minute && r.value.second == second
  {
    var len := if end >= p then end - p else 0;
    if len != 3 && len != 6 then None
    else match ParseDigits(s, p, len)
      case None => None
      case Some(f) =>
        Some(Clock(hour, minute, second, if len == 3 then f * 1000 else f, CharAt(s, p + len) != '\0'))
  }

  /**
   * `parse_hh_mm_ss_ff` on `s[p..end]`: up to three two-digit fields, each
   * followed by a separator character; the text stops after a field whose
   * separator is the last character of the range or lies beyond it.
   */
  function ParseClock(s: string, p: nat, end: nat): (r: Option<Clock>)
    ensures r.Some? ==> ParseDigits(s, p, 2).Some? && r.value.hour == ParseDigits(s, p, 2).value
    ensures r.Some? && p + 3 < end ==>
      && CharAt(s, p + 2) in {':', '.'}
      && (CharAt(s, p + 2) == ':' ==> ParseDigits(s, p + 3, 2).Some? && r.value.minute == ParseDigits(s, p + 3, 2).value)
  {
    match ParseDigits(s, p, 2)
    case None => None
    case Some(h) =>
      var c1 := CharAt(s, p + 2);
      if p + 3 >= end then Some(Clock(h, 0, 0, 0, c1 != '\0'))
      else if c1 == '.' then ParseFraction(s, p + 3, end, h, 0, 0)
      else if c1 != ':' then None
      else match ParseDigits(s, p + 3, 2)
        case None => None
        case Some(m) =>
          var c2 := CharAt(s, p + 5);
          if p + 6 >= end then Some(Clock(h, m, 0, 0, c2 != '\0'))
          else if c2 == '.' then ParseFraction(s, p + 6, end, h, m, 0)
          else if c2 != ':' then None
          else match ParseDigits(s, p + 6, 2)
            case None => None
            case Some(sec) =>
              var c3 := CharAt(s, p + 8);
              if p + 9 >= end then Some(Clock(h, m, sec, 0, c3 != '\0'))
              else if c3 == '.' || c3 == ':' then ParseFraction(s, p + 9, end, h, m, sec)
              else None
  }

  /** The first `+` or `-` at or after `k`, or `|s|`. */
  function OffsetStart(s: string, k: nat): (t: nat)
    requires k <= |s|
    ensures k <= t <= |s|
    ensures forall j :: k <= j < t ==> s[j] != '+' && s[j] != '-'
    ensures t < |s| ==> s[t] == '+' || s[t] == '-'
    decreases |s| - k
  {
    if k == |s| || s[k] == '+' || s[k] == '-' then k else OffsetStart(s, k + 1)
  }

  /** An offset must lie strictly within one day. */
  predicate OffsetInRange(tz: Clock) {
    (tz.hour * 3600 + tz.minute * 60 + tz.second) * 1000000 + tz.microsecond < 86400 * 1000000
  }

  /** `parse_isoformat_time` on `s[start..]`, with the offset's validity folded in. */
  function ParseTime(s: string, start: nat): Option<Clock>
    requires start <= |s|
  {
    if start == |s| then None
    else
      var tzPos := OffsetStart(s, start);
      match ParseClock(s, start, tzPos)
      case None => None
      case Some(clock) =>
        if tzPos == |s| then (if clock.trailing then None else Some(clock))
        else
          var tzLen := |s| - tzPos;
          if tzLen != 6 && tzLen != 9 && tzLen != 16 then None
          else match ParseClock(s, tzPos + 1, |s|)
            case None => None
            case Some(tz) => if tz.trailing || !OffsetInRange(tz) then None else Some(clock)
  }

  predicate IsLeapYear(y: nat) {
    y % 4 == 0 && (y % 100 != 0 || y % 400 == 0)
  }

  function DaysInMonth(y: nat, m: nat): nat
    requires 1 <= m <= 12
  {
    if m == 2 then (if IsLeapYear(y) then 29 else 28)
    else if m == 4 || m == 6 || m == 9 || m == 11 then 30
    else 31
  }

  /** The range checks of the `datetime` constructor. */
  predicate ValidDateTime(dt: DateTime) {
    && 1 <= dt.year <= 9999
    && 1 <= dt.month <= 12
    && 1 <= dt.day <= DaysInMonth(dt.year, dt.month)
    && dt.hour <= 23 && dt.minute <= 59 && dt.second <= 59 && dt.microsecond <= 999999
  }

  predicate IsAscii(s: string) {
    forall k :: 0 <= k < |s| ==> s[k] < '\U{80}'
  }

  /** `datetime.fromisoformat(s)`, `None` standing for any exception it raises. */
  function FromIsoFormat(s: string): (r: Option<DateTime>)
    ensures r.Some? ==> ValidDateTime(r.value)
  {
    var year, month, day := ParseDigits(s, 0, 4), ParseDigits(s, 5, 2), ParseDigits(s, 8, 2);
    if year.None? || CharAt(s, 4) != '-' || month.None? || CharAt(s, 7) != '-' || day.None? then None
    else
      var clock :=
        if |s| <= 10 then Some(Clock(0, 0, 0, 0, false))
        else if !IsAscii(s[11..]) then None
        else ParseTime(s, 11);
      match clock
      case None => None
      case Some(c) =>
        var dt := DateTime(year.value, month.value, day.value, c.hour, c.minute, c.second, c.microsecond);
        if ValidDateTime(dt) then Some(dt) else None
  }

  /** `%m`, `%d`, `%H`, `%M`: two digits, zero-padded. */
  function Pad2(n: nat): string
    requires n < 100
  {
    [DigitChar(n / 10), DigitChar(n % 10)]
  }

  /** `dt.strftime('%Y-%m-%d %H:%M')`; glibc does not pad a year below 1000. */
  function Render(dt: DateTime): string
    requires ValidDateTime(dt)
  {
    NatToString(dt.year) + "-" + Pad2(dt.month) + "-" + Pad2(dt.day) + " " + Pad2(dt.hour) + ":" + Pad2(dt.minute)
  }

  /** The `Time` cell of one row. */
  function TimeCell(createdAt: Value): Result<string> {
    if !Truthy(createdAt) then Success("N/A")
    else match createdAt
      case Text(s) =>
        (match FromIsoFormat(ReplaceChar(s, 'Z', "+00:00"))
         case Some(dt) => Success(Render(dt))
         case None => Success(Take(s, 16)))
      case _ =>
        // `replace` fails on a number and the bare `except` catches it; `created_at[:16]`
        // then fails in the `except` handler, where nothing catches it
        Failure(TypeError("'" + TypeName(createdAt) + "' object is not subscriptable"))
  }

  // ----- properties -----

  /** One more digit appends it to the value read so far. */
  lemma ParseDigitsNext(s: string, p: nat, n: nat)
    requires ParseDigits(s, p, n).Some? && p + n < |s| && IsDigit(s[p + n])
    ensures ParseDigits(s, p, n + 1) == Some(10 * ParseDigits(s, p, n).value + DigitValue(s[p + n]))
  {
  }

  /** Two digits parse to their value, and padding that value gives the digits back. */
  lemma TwoDigitsRoundTrip(s: string, p: nat)
    requires p + 2 <= |s| && IsDigit(s[p]) && IsDigit(s[p + 1])
    ensures ParseDigits(s, p, 2).Some? && ParseDigits(s, p, 2).value < 100
    ensures Pad2(ParseDigits(s, p, 2).value) == s[p..p + 2]
  {
    ParseDigitsNext(s, p, 0);
    ParseDigitsNext(s, p, 1);
    var a, b := DigitValue(s[p]), DigitValue(s[p + 1]);
    assert ParseDigits(s, p, 2).value == 10 * a + b;
    assert (10 * a + b) / 10 == a && (10 * a + b) % 10 == b;
  }

  lemma NatToStringAppendDigit(v: nat, d: nat, n: nat)
    requires v >= 1 && d < 10 && n == 10 * v + d
    ensures NatToString(n) == NatToString(v) + [DigitChar(d)]
  {
    assert n / 10 == v && n % 10 == d;
  }

  lemma FourDigitString(a: nat, b: nat, c: nat, d: nat, n: nat)
    requires 1 <= a < 10 && b < 10 && c < 10 && d < 10
    requires n == 1000 * a + 100 * b + 10 * c + d
    ensures NatToString(n) == [DigitChar(a), DigitChar(b), DigitChar(c), DigitChar(d)]
  {
    var v2 := 10 * a + b;
    var v3 := 10 * v2 + c;
    assert NatToString(a) == [DigitChar(a)];
    NatToStringAppendDigit(a, b, v2);
    NatToStringAppendDigit(v2, c, v3);
    NatToStringAppendDigit(v3, d, n);
  }

  /** Four digits not starting with `0` print back as themselves. */
  lemma FourDigitsRoundTrip(s: string)
    requires 4 <= |s| && IsDigit(s[0]) && IsDigit(s[1]) && IsDigit(s[2]) && IsDigit(s[3])
    requires s[0] != '0'
    ensures ParseDigits(s, 0, 4).Some? && NatToString(ParseDigits(s, 0, 4).value) == s[..4]
  {
    var d0, d1, d2, d3 := DigitValue(s[0]), DigitValue(s[1]), DigitValue(s[2]), DigitValue(s[3]);
    ParseDigitsNext(s, 0, 0);
    ParseDigitsNext(s, 0, 1);
    ParseDigitsNext(s, 0, 2);
    ParseDigitsNext(s, 0, 3);
    var v := ParseDigits(s, 0, 4).value;
    assert v == 1000 * d0 + 100 * d1 + 10 * d2 + d3;
    FourDigitString(d0, d1, d2, d3, v);
    assert s[..4] == [s[0], s[1], s[2], s[3]];
  }

  /** A text whose time is given to the minute: `YYYY-MM-DD?HH:MM…` with a year from 1000 on. */
  predicate MinutePrecise(s: string) {
    |s| >= 16 && s[0] != '0' && s[13] == ':' && IsDigit(s[14]) && IsDigit(s[15])
  }

  /** The date fields of a parsed text are the digits of its first ten characters. */
  lemma DateFields(s: string)
    requires FromIsoFormat(s).Some? && |s| >= 10 && s[0] != '0'
    ensures NatToString(FromIsoFormat(s).value.year) + "-" + Pad2(FromIsoFormat(s).value.month) + "-"
      + Pad2(FromIsoFormat(s).value.day) == s[..10]
  {
    var dt := FromIsoFormat(s).value;
    assert ParseDigits(s, 0, 4).Some? && ParseDigits(s, 5, 2).Some? && ParseDigits(s, 8, 2).Some?;
    assert s[4] == '-' && s[7] == '-';
    FourDigitsRoundTrip(s);
    TwoDigitsRoundTrip(s, 5);
    TwoDigitsRoundTrip(s, 8);
    assert s[..10] == s[..4] + "-" + s[5..7] + "-" + s[8..10];
  }

  /** With `HH:MM` after the separator, the clock's hour and minute are those digits. */
  lemma ClockFields(s: string)
    requires MinutePrecise(s) && ParseTime(s, 11).Some?
    ensures ParseDigits(s, 11, 2).Some? && ParseTime(s, 11).value.hour == ParseDigits(s, 11, 2).value
    ensures ParseDigits(s, 14, 2).Some? && ParseTime(s, 11).value.minute == ParseDigits(s, 14, 2).value
  {
    var tzPos := OffsetStart(s, 11);
    var clock := ParseClock(s, 11, tzPos);
    assert clock.Some? && clock.value == ParseTime(s, 11).value;
    assert IsDigit(s[11]) && IsDigit(s[12]);
    assert s[11] != '+' && s[12] != '+' && s[13] != '+' && s[14] != '+' && s[15] != '+';
    assert s[11] != '-' && s[12] != '-' && s[13] != '-' && s[14] != '-' && s[15] != '-';
    assert tzPos >= 16;
  }

  /**
   * A parsed timestamp renders as its own date, a space, and its own hour
   * and minute: the separator becomes a space and seconds, fractions and
   * offset are dropped.
   */
  lemma RenderKeepsDateAndMinute(s: string)
    requires FromIsoFormat(s).Some? && MinutePrecise(s)
    ensures Render(FromIsoFormat(s).value) == s[..10] + " " + s[11..16]
  {
    var dt := FromIsoFormat(s).value;
    DateFields(s);
    assert ParseTime(s, 11).Some? && dt.hour == ParseTime(s, 11).value.hour && dt.minute == ParseTime(s, 11).value.minute;
    ClockFields(s);
    TwoDigitsRoundTrip(s, 11);
    TwoDigitsRoundTrip(s, 14);
    assert s[11..16] == s[11..13] + ":" + s[14..16];
  }

  /** A rendered timestamp is at most 16 characters long: four for the year, twelve for the rest. */
  lemma RenderLength(dt: DateTime)
    requires ValidDateTime(dt)
    ensures |Render(dt)| <= 16
  {
    assert Pow10(4) == 10000;
    NatToStringLength(dt.year, 4);
  }

  /**
   * The cell is at most 16 characters long, and it is an error exactly when
   * `created_at` is a non-zero number.
   */
  lemma TimeCellShape(createdAt: Value)
    ensures TimeCell(createdAt).Success? ==> |TimeCell(createdAt).value| <= 16
    ensures TimeCell(createdAt).Failure? <==> (createdAt.Integer? || createdAt.Real?) && Truthy(createdAt)
    ensures !Truthy(createdAt) ==> TimeCell(createdAt) == Success("N/A")
  {
    if createdAt.Text? && Truthy(createdAt) {
      var t := ReplaceChar(createdAt.s, 'Z', "+00:00");
      if FromIsoFormat(t).Some? {
        RenderLength(FromIsoFormat(t).value);
      }
    }
  }

  /** Replacing `Z` after the first 16 characters leaves the date and minute text alone. */
  lemma ReplaceZKeepsMinute(s: string)
    requires MinutePrecise(s) && 'Z' !in s[..16]
    ensures var t := ReplaceChar(s, 'Z', "+00:00");
      MinutePrecise(t) && t[..10] == s[..10] && t[11..16] == s[11..16]
  {
    var t := ReplaceChar(s, 'Z', "+00:00");
    ReplaceCharKeepsPrefix(s, 'Z', "+00:00", 16);
    assert t[..16] == s[..16];
    assert t[..10] == t[..16][..10] && s[..10] == s[..16][..10];
    assert t[11..16] == t[..16][11..16] && s[11..16] == s[..16][11..16];
    assert t[0] == s[0] && t[13] == s[13] && t[14] == s[14] && t[15] == s[15];
  }

  /**
   * An ISO timestamp given to the minute shows as its date and `HH:MM`
   * joined by a space, whatever separator, seconds and offset it has.
   */
  lemma TimeCellKeepsDateAndMinute(s: string)
    requires MinutePrecise(s) && 'Z' !in s[..16]
    requires FromIsoFormat(ReplaceChar(s, 'Z', "+00:00")).Some?
    ensures TimeCell(Text(s)) == Success(s[..10] + " " + s[11..16])
  {
    var t := ReplaceChar(s, 'Z', "+00:00");
    ReplaceZKeepsMinute(s);
    RenderKeepsDateAndMinute(t);
    assert TimeCell(Text(s)) == Success(Render(FromIsoFormat(t).value));
  }

  // ----- examples -----

  const SampleClock := "2024-01-15T10:30:00"
  const SampleStamp := SampleClock + "Z"
  const SampleParsed := SampleClock + "+00:00"

  lemma SampleReplaced()
    ensures ReplaceChar(SampleStamp, 'Z', "+00:00") == SampleParsed
  {
    assert 'Z' !in SampleClock;
    ReplaceLast(SampleClock, 'Z', "+00:00");
  }

  /** Replacing a character that occurs only at the end. */
  lemma ReplaceLast(s: string, c: char, r: string)
    requires c !in s
    ensures ReplaceChar(s + [c], c, r) == s + r
  {
    ReplaceCharAppend(s, [c], c, r);
    ReplaceCharAbsent(s, c, r);
    assert ReplaceChar([c], c, r) == r + ReplaceChar([], c, r);
  }

  lemma SampleOffsetStart()
    ensures OffsetStart(SampleParsed, 11) == 19
  {
    var t := SampleParsed;
    assert t[19] == '+';
    assert forall j :: 11 <= j < 19 ==> t[j] != '+' && t[j] != '-';
  }

  lemma SampleTime()
    ensures ParseTime(SampleParsed, 11) == Some(Clock(10, 30, 0, 0, true))
  {
    SampleOffsetStart();
    SampleClockFields();
    SampleOffsetFields();
  }

  lemma SampleClockFields()
    ensures ParseClock(SampleParsed, 11, 19) == Some(Clock(10, 30, 0, 0, true))
  {
    var t := SampleParsed;
    assert ParseDigits(t, 11, 2) == Some(10);
    assert ParseDigits(t, 14, 2) == Some(30);
    assert ParseDigits(t, 17, 2) == Some(0);
  }

  lemma SampleOffsetFields()
    ensures ParseClock(SampleParsed, 20, 25) == Some(Clock(0, 0, 0, 0, false))
  {
    var t := SampleParsed;
    assert |t| == 25;
    assert ParseDigits(t, 20, 2) == Some(0);
    assert ParseDigits(t, 23, 2) == Some(0);
  }

  lemma SampleDate()
    ensures ParseDigits(SampleParsed, 0, 4) == Some(2024)
    ensures ParseDigits(SampleParsed, 5, 2) == Some(1)
    ensures ParseDigits(SampleParsed, 8, 2) == Some(15)
    ensures CharAt(SampleParsed, 4) == '-' && CharAt(SampleParsed, 7) == '-'
  {
    SampleYear();
    SampleMonth();
    SampleDay();
  }

  lemma SampleYear()
    ensures ParseDigits(SampleParsed, 0, 4) == Some(2024)
  {
    var t := SampleParsed;
    assert t[0] == '2' && t[1] == '0' && t[2] == '2' && t[3] == '4';
    assert ParseDigits(t, 0, 2) == Some(20);
  }

  lemma SampleMonth()
    ensures ParseDigits(SampleParsed, 5, 2) == Some(1)
  {
    var t := SampleParsed;
    assert t[5] == '0' && t[6] == '1';
  }

  lemma SampleDay()
    ensures ParseDigits(SampleParsed, 8, 2) == Some(15)
  {
    var t := SampleParsed;
    assert t[8] == '1' && t[9] == '5';
  }

  lemma SampleAscii()
    ensures |SampleParsed| > 10 && IsAscii(SampleParsed[11..])
  {
    assert SampleParsed[11..] == "10:30:00+00:00";
  }

  lemma SampleParses()
    ensures FromIsoFormat(SampleParsed).Some?
  {
    SampleDate();
    SampleAscii();
    SampleTime();
    assert ValidDateTime(DateTime(2024, 1, 15, 10, 30, 0, 0));
  }

  lemma SampleShape()
    ensures MinutePrecise(SampleStamp) && 'Z' !in SampleStamp[..16]
  {
    assert SampleStamp[..16] == "2024-01-15T10:30";
  }

  lemma SampleText()
    ensures SampleStamp == "2024-01-15T10:30:00Z"
    ensures SampleStamp[..10] + " " + SampleStamp[11..16] == "2024-01-15 10:30"
  {
    assert SampleStamp[..10] == "2024-01-15";
    assert SampleStamp[11..16] == "10:30";
  }

  /** `2024-01-15T10:30:00Z` shows as `2024-01-15 10:30`. */
  lemma SampleTimeCell()
    ensures TimeCell(Text("2024-01-15T10:30:00Z")) == Success("2024-01-15 10:30")
  {
    SampleReplaced();
    SampleParses();
    SampleShape();
    TimeCellKeepsDateAndMinute(SampleStamp);
    SampleText();
  }

  const FreeText := "yesterday afternoon"

  lemma FreeTextKept()
    ensures ReplaceChar(FreeText, 'Z', "+00:00") == FreeText
  {
    assert 'Z' !in FreeText;
    ReplaceCharAbsent(FreeText, 'Z', "+00:00");
  }

  lemma FreeTextUnparsed()
    ensures FromIsoFormat(FreeText).None?
  {
    assert !IsDigit(FreeText[0]);
    assert ParseDigits(FreeText, 0, 1).None?;
  }

  lemma FreeTextPrefix()
    ensures Take(FreeText, 16) == "yesterday aftern"
  {
  }

  lemma UnparsedTimeCell(s: string)
    requires s != [] && FromIsoFormat(ReplaceChar(s, 'Z', "+00:00")).None?
    ensures TimeCell(Text(s)) == Success(Take(s, 16))
  {
  }

  /** Free text keeps its first 16 characters. */
  lemma FreeTextTimeCell()
    ensures TimeCell(Text(FreeText)) == Success("yesterday aftern")
  {
    FreeTextKept();
    FreeTextUnparsed();
    UnparsedTimeCell(FreeText);
    FreeTextPrefix();
  }
}
