/**
  Instants in milliseconds, the fields of a date and time, and the date time string format of
  section 15.9.1.15 of ECMA-262, edition 5.1: `toISOString` writes it, `Date.parse` reads it.
*/
module IsoDates {
  import opened ActionGraph
  import opened Calendar
  import Arithmetic
  import Decimals

  // ------------------------------------------------------------------------
  // Fields and time values
  // ------------------------------------------------------------------------

  datatype Fields = Fields(date: Date, hour: int, minute: int, second: int, ms: int)

  predicate IsTime(hour: int, minute: int, second: int, ms: int) {
    0 <= hour < 24 && 0 <= minute < 60 && 0 <= second < 60 && 0 <= ms < 1000
  }

  predicate Valid(f: Fields) {
    IsDate(f.date) && IsTime(f.hour, f.minute, f.second, f.ms)
  }

  /** Milliseconds from the start of 1970. */
  function TimeValue(f: Fields): int
    requires IsDate(f.date)
  {
    (((DayNumber(f.date) * 24 + f.hour) * 60 + f.minute) * 60 + f.second) * 1000 + f.ms
  }

  const MS_PER_DAY := 86400000

  /** The fields of an instant (sections 15.9.1.2 to 15.9.1.10). */
  function FieldsOf(t: int): (f: Fields)
    ensures Valid(f)
  {
    var day, rest := t / MS_PER_DAY, t % MS_PER_DAY;
    Fields(DateOf(day), rest / 3600000, rest / 60000 % 60, rest / 1000 % 60, rest % 1000)
  }

  lemma {:induction false} Parts(rest: int)
    requires 0 <= rest < MS_PER_DAY
    ensures ((rest / 3600000 * 60 + rest / 60000 % 60) * 60 + rest / 1000 % 60) * 1000 + rest % 1000 == rest
  {
  }

  /** Every instant has fields. */
  lemma {:induction false} TimeOfFields(t: int)
    ensures TimeValue(FieldsOf(t)) == t
  {
    hide DateOf, DayNumber;
    DateOfDay(t / MS_PER_DAY);
    Parts(t % MS_PER_DAY);
  }

  predicate Before(f: Fields, g: Fields) {
    || Earlier(f.date, g.date)
    || (f.date == g.date
        && (|| f.hour < g.hour
            || (f.hour == g.hour
                && (|| f.minute < g.minute
                    || (f.minute == g.minute && (f.second < g.second || (f.second == g.second && f.ms < g.ms)))))))
  }

  /** Time values grow with the fields, most significant first. */
  lemma {:induction false} TimesGrow(f: Fields, g: Fields)
    requires Valid(f) && Valid(g) && Before(f, g)
    ensures TimeValue(f) < TimeValue(g)
  {
    hide DayNumber, IsDate;
    if Earlier(f.date, g.date) {
      DaysGrow(f.date, g.date);
    }
  }

  /** An instant has one set of fields. */
  lemma {:induction false} FieldsAreUnique(f: Fields, g: Fields)
    requires Valid(f) && Valid(g) && TimeValue(f) == TimeValue(g)
    ensures f == g
  {
    hide TimeValue, IsDate;
    if Before(f, g) {
      TimesGrow(f, g);
    } else if Before(g, f) {
      TimesGrow(g, f);
    }
  }

  // ------------------------------------------------------------------------
  // Writing
  // ------------------------------------------------------------------------

  /** JavaScript's remainder has the sign of the dividend. */
  function Rem(a: int, b: int): int
    requires b > 0
  {
    if a >= 0 then a % b else -(-a % b)
  }

  /** Some hosts answer months outside a year; `toISOString` sets them right. */
  function Normalized(f: Fields): Fields {
    f.(date := Date(f.date.year + f.date.month / 12, f.date.month % 12, f.date.day))
  }

  /** The last k characters. */
  function Last(s: string, k: nat): string {
    if |s| <= k then s else s[|s| - k..]
  }

  function YearText(y: int): string {
    if y < 0 then "-" + Decimals.Padded(-y, 6)
    else if y > 9999 then "+" + Decimals.Padded(y, 6)
    else Decimals.Padded(y, 4)
  }

  /** The format, from each field on to the end. */
  function FromMs(f: Fields): string
    requires Valid(f)
  {
    "." + Decimals.Padded(f.ms, 3) + "Z"
  }

  function FromSecond(f: Fields): string
    requires Valid(f)
  {
    ":" + Decimals.Padded(f.second, 2) + FromMs(f)
  }

  function FromHour(f: Fields): string
    requires Valid(f)
  {
    "T" + Decimals.Padded(f.hour, 2) + ":" + Decimals.Padded(f.minute, 2) + FromSecond(f)
  }

  function FromDay(f: Fields): string
    requires Valid(f)
  {
    "-" + Decimals.Padded(f.date.day, 2) + FromHour(f)
  }

  function FromMonth(f: Fields): string
    requires Valid(f)
  {
    "-" + Decimals.Padded(f.date.month + 1, 2) + FromDay(f)
  }

  function Layout(f: Fields): string
    requires Valid(f)
  {
    YearText(f.date.year) + FromMonth(f)
  }

  lemma {:induction false} LastOfPadded(zeros: string, n: nat, k: nat)
    requires zeros == Decimals.Zeros(|zeros|) && 0 < k <= |zeros| + 1 && n < Decimals.Pow(10, k)
    ensures Last(zeros + Decimals.Decimal(n), k) == Decimals.Padded(n, k)
  {
    hide Decimals.Pow, Decimals.Padded, Decimals.Decimal;
    Decimals.PaddedDecimal(n, k);
    var d := Decimals.Decimal(n);
    var padded := Decimals.Padded(n, k);
    var s := zeros + d;
    var cut := |s| - k;
    forall i | 0 <= i < k ensures s[cut + i] == padded[i] {
      if i < k - |d| {
        assert zeros[cut + i] == '0';
      } else {
        assert s[cut + i] == d[i - (k - |d|)];
      }
    }
    assert s[cut..] == padded;
  }

  lemma {:induction false} ZerosAre(s: string)
    requires forall i :: 0 <= i < |s| ==> s[i] == '0'
    ensures s == Decimals.Zeros(|s|)
  {
  }

  lemma {:induction false} Powers()
    ensures Decimals.Pow(10, 2) == 100 && Decimals.Pow(10, 3) == 1000
    ensures Decimals.Pow(10, 4) == 10000 && Decimals.Pow(10, 6) == 1000000
  {
    assert Decimals.Raised(10, 1) == 10;
    assert Decimals.Raised(10, 2) == 100;
    assert Decimals.Raised(10, 3) == 1000;
    assert Decimals.Raised(10, 4) == 10000;
    assert Decimals.Raised(10, 5) == 100000;
  }

  /** Joins with a separator. */
  function Join(parts: seq<string>, separator: string): string {
    if parts == [] then "" else if |parts| == 1 then parts[0] else parts[0] + separator + Join(parts[1..], separator)
  }

  function Abs(n: int): nat {
    if n < 0 then -n else n
  }

  datatype Written = Text(text: string) | RangeError

  /** `toISOString`, from what the host answers for an instant; a date that is not finite has no answers. */
  method ToISOString(answers: Option<Fields>) returns (r: Written)
    requires answers.Some? ==> Valid(Normalized(answers.value)) && -999999 <= Normalized(answers.value).date.year <= 999999
    ensures r == if answers.None? then RangeError else Text(Layout(Normalized(answers.value)))
  {
    if answers.None? {
      return RangeError;
    }
    var host := answers.value;
    hide Decimals.Pow, Decimals.Padded, Decimals.Decimal, MonthLength, YearText, Last, Layout, Join, Rem;
    ghost var f := Normalized(host);
    Powers();
    var year := host.date.year + host.date.month / 12;
    var month := Rem(Rem(host.date.month, 12) + 12, 12);
    Remainders(host.date.month);
    assert year == f.date.year && month == f.date.month;
    DaysFew(f.date);
    var result := [month + 1, host.date.day, host.hour, host.minute, host.second];
    var yearText := (if year < 0 then "-" else if year > 9999 then "+" else "")
                    + Last("00000" + Decimals.Decimal(Abs(year)), if 0 <= year <= 9999 then 4 else 6);
    YearTextIs(year);
    ZerosAre("00");
    var texts: seq<string> := [];
    for i := 0 to |result|
      invariant |texts| == i
      invariant forall j :: 0 <= j < i ==> texts[j] == Decimals.Padded(result[j], 2)
    {
      LastOfPadded("00", result[i], 2);
      texts := texts + [Last("00" + Decimals.Decimal(result[i]), 2)];
    }
    ZerosAre("000");
    LastOfPadded("000", host.ms, 3);
    Joined(texts);
    r := Text(yearText + "-" + Join(texts[..2], "-") + "T" + Join(texts[2..], ":") + "." + Last("000" + Decimals.Decimal(host.ms), 3) + "Z");
    LayoutIs(f);
  }

  lemma {:induction false} YearTextIs(year: int)
    requires -999999 <= year <= 999999
    ensures YearText(year) == (if year < 0 then "-" else if year > 9999 then "+" else "")
                              + Last("00000" + Decimals.Decimal(Abs(year)), if 0 <= year <= 9999 then 4 else 6)
  {
    hide Decimals.Pow, Decimals.Padded, Decimals.Decimal, Last;
    Powers();
    ZerosAre("00000");
    LastOfPadded("00000", Abs(year), if 0 <= year <= 9999 then 4 else 6);
  }

  lemma {:induction false} Remainders(m: int)
    ensures Rem(Rem(m, 12) + 12, 12) == m % 12
  {
  }

  lemma {:induction false} DaysFew(d: Date)
    requires IsDate(d)
    ensures 1 <= d.day <= 31
  {
  }

  lemma {:induction false} Joined(texts: seq<string>)
    requires |texts| == 5
    ensures Join(texts[..2], "-") == texts[0] + "-" + texts[1]
    ensures Join(texts[2..], ":") == texts[2] + ":" + texts[3] + ":" + texts[4]
  {
    var a, b := texts[..2], texts[2..];
    assert a[1..] == [texts[1]];
    assert b[1..][1..] == [texts[4]] && b[1..][0] == texts[3];
    assert Join(b[1..], ":") == texts[3] + ":" + texts[4];
    assert texts[2] + ":" + (texts[3] + ":" + texts[4]) == texts[2] + ":" + texts[3] + ":" + texts[4];
  }

  lemma {:induction false} LayoutIs(f: Fields)
    requires Valid(f)
    ensures Layout(f) == YearText(f.date.year) + "-" + (Decimals.Padded(f.date.month + 1, 2) + "-" + Decimals.Padded(f.date.day, 2))
                         + "T" + (Decimals.Padded(f.hour, 2) + ":" + Decimals.Padded(f.minute, 2) + ":" + Decimals.Padded(f.second, 2))
                         + "." + Decimals.Padded(f.ms, 3) + "Z"
  {
    hide Decimals.Padded, YearText;
    var y, mo, d, h, mi, s, ms := YearText(f.date.year), Decimals.Padded(f.date.month + 1, 2), Decimals.Padded(f.date.day, 2),
                                  Decimals.Padded(f.hour, 2), Decimals.Padded(f.minute, 2), Decimals.Padded(f.second, 2), Decimals.Padded(f.ms, 3);
    var tail := ":" + s + ("." + ms + "Z");
    assert "T" + h + ":" + mi + tail == "T" + (h + ":" + mi + ":" + s) + "." + ms + "Z";
    var time := "T" + (h + ":" + mi + ":" + s) + "." + ms + "Z";
    assert FromHour(f) == time;
    assert y + ("-" + mo + ("-" + d + time)) == y + "-" + (mo + "-" + d) + time;
    assert y + "-" + (mo + "-" + d) + time == y + "-" + (mo + "-" + d) + "T" + (h + ":" + mi + ":" + s) + "." + ms + "Z";
  }

  // ------------------------------------------------------------------------
  // Reading
  // ------------------------------------------------------------------------

  /** What the groups of the regular expression capture; empty when a group takes no part. */
  datatype Captures = Captures(year: string, month: string, day: string, hour: string, minute: string, second: string,
                               fraction: string, zone: string, sign: string, zoneHour: string, zoneMinute: string)

  predicate AllDigits(s: string) {
    forall i :: 0 <= i < |s| ==> Decimals.IsDigit(s[i])
  }

  /** Whether a string goes on with two digits. */
  predicate TwoDigits(s: string) {
    |s| >= 2 && Decimals.IsDigit(s[0]) && Decimals.IsDigit(s[1])
  }

  function DigitRun(s: string): (n: nat)
    ensures n <= |s| && AllDigits(s[..n])
  {
    if s == "" || !Decimals.IsDigit(s[0]) then 0
    else
      var n := DigitRun(s[1..]);
      assert forall i :: 0 < i <= n ==> s[i] == s[1..][..n][i - 1];
      n + 1
  }

  function MatchZone(c: Captures, s: string): Option<Captures> {
    if s == "" then Some(c)
    else if s == "Z" then Some(c.(zone := "Z"))
    else if |s| == 6 && (s[0] == '+' || s[0] == '-') && TwoDigits(s[1..]) && s[3] == ':' && TwoDigits(s[4..]) then
      Some(c.(zone := s, sign := s[..1], zoneHour := s[1..3], zoneMinute := s[4..6]))
    else None
  }

  function MatchFraction(c: Captures, s: string): Option<Captures> {
    if s != "" && s[0] == '.' then
      var n := DigitRun(s[1..]);
      if n == 0 then None else MatchZone(c.(fraction := s[1..1 + n]), s[1 + n..])
    else MatchZone(c, s)
  }

  function MatchSecond(c: Captures, s: string): Option<Captures> {
    if s != "" && s[0] == ':' then
      if TwoDigits(s[1..]) then MatchFraction(c.(second := s[1..3]), s[3..]) else None
    else MatchZone(c, s)
  }

  function MatchTime(c: Captures, s: string): Option<Captures> {
    if s == "" then Some(c)
    else if s[0] == 'T' && TwoDigits(s[1..]) && |s| >= 6 && s[3] == ':' && TwoDigits(s[4..]) then
      MatchSecond(c.(hour := s[1..3], minute := s[4..6]), s[6..])
    else None
  }

  function MatchDay(c: Captures, s: string): Option<Captures> {
    if s == "" then Some(c)
    else if s[0] == '-' && TwoDigits(s[1..]) then MatchTime(c.(day := s[1..3]), s[3..])
    else None
  }

  function MatchMonth(c: Captures, s: string): Option<Captures> {
    if s == "" then Some(c)
    else if s[0] == '-' && TwoDigits(s[1..]) then MatchDay(c.(month := s[1..3]), s[3..])
    else None
  }

  const NOTHING := Captures("", "", "", "", "", "", "", "", "", "", "")

  /** `isoDateExpression.exec`; each choice is settled by the next character. */
  function Match(s: string): Option<Captures> {
    if s != "" && (s[0] == '+' || s[0] == '-') then
      if |s| >= 7 && AllDigits(s[1..7]) then MatchMonth(NOTHING.(year := s[..7]), s[7..]) else None
    else if |s| >= 4 && AllDigits(s[..4]) then MatchMonth(NOTHING.(year := s[..4]), s[4..])
    else None
  }

  /** The outcome: an instant, a local time for the host's time zone to convert, NaN, or what the host's own `parse` says. */
  datatype Parsed = Instant(t: int) | Local(t: int) | NotANumber | Native

  function Number(s: string, default: int): int {
    if s == "" then default
    else if s[0] == '-' then 0 - Decimals.Parse(s[1..])
    else if s[0] == '+' then Decimals.Parse(s[1..])
    else Decimals.Parse(s)
  }

  /** Whole milliseconds of a decimal fraction of a second. */
  function Millis(fraction: string): int {
    Decimals.Parse(fraction) * 1000 / Decimals.Pow(10, |fraction|)
  }

  const MAX_TIME := 8640000000000000

  /** The fields that are looked at: none may be beyond its range, and the day is one of the month. */
  predicate InRange(c: Captures) {
    var year, month, day := Number(c.year, 0), Number(c.month, 1) - 1, Number(c.day, 1) - 1;
    var hour, minute, second, millisecond := Number(c.hour, 0), Number(c.minute, 0), Number(c.second, 0), Millis(c.fraction);
    var hasMinutesOrSecondsOrMilliseconds := minute > 0 || second > 0 || millisecond > 0;
    && hour < (if hasMinutesOrSecondsOrMilliseconds then 24 else 25)
    && minute < 60 && second < 60 && millisecond < 1000
    && month > -1 && month < 12 && Number(c.zoneHour, 0) < 24
    && Number(c.zoneMinute, 0) < 60
    && day > -1
    && day < DayFromMonth(year, month + 1) - DayFromMonth(year, month)
  }

  function Result(c: Captures): int
    requires 0 <= Number(c.month, 1) - 1 < 12
  {
    var year, month, day := Number(c.year, 0), Number(c.month, 1) - 1, Number(c.day, 1) - 1;
    var hour, minute, second, millisecond := Number(c.hour, 0), Number(c.minute, 0), Number(c.second, 0), Millis(c.fraction);
    var signOffset := if c.sign == "-" then 1 else -1;
    var hourOffset, minuteOffset := Number(c.zoneHour, 0), Number(c.zoneMinute, 0);
    var minutes := ((DayFromMonth(year, month) + day) * 24 + hour + hourOffset * signOffset) * 60;
    ((minutes + minute + minuteOffset * signOffset) * 60 + second) * 1000 + millisecond
  }

  /** `parse` */
  function ParseShim(s: string): Parsed {
    var m := Match(s);
    if m.None? then Native
    else
      var c := m.value;
      var isLocalTime := c.hour != "" && c.zone == "";
      if InRange(c) then
        var result := Result(c);
        if isLocalTime then Local(result)
        else if -MAX_TIME <= result <= MAX_TIME then Instant(result)
        else NotANumber
      else NotANumber
  }

  // ------------------------------------------------------------------------
  // What parsing means
  // ------------------------------------------------------------------------

  function DateIn(c: Captures): Date {
    Date(Number(c.year, 0), Number(c.month, 1) - 1, Number(c.day, 1))
  }

  function FieldsIn(c: Captures): Fields {
    Fields(DateIn(c), Number(c.hour, 0), Number(c.minute, 0), Number(c.second, 0), Millis(c.fraction))
  }

  /** How far the zone is ahead of UTC, in milliseconds. */
  function Offset(c: Captures): int {
    (if c.sign == "-" then -1 else 1) * (Number(c.zoneHour, 0) * 60 + Number(c.zoneMinute, 0)) * 60000
  }

  /** A date of the calendar, with a time of day or the midnight that ends it. */
  predicate IsMoment(f: Fields) {
    IsDate(f.date) && (IsTime(f.hour, f.minute, f.second, f.ms) || (f.hour == 24 && f.minute == 0 && f.second == 0 && f.ms == 0))
  }

  predicate IsZone(c: Captures) {
    Number(c.zoneHour, 0) < 24 && Number(c.zoneMinute, 0) < 60
  }

  lemma {:induction false} Unsigned(s: string, default: nat)
    requires s != "" ==> Decimals.IsDigit(s[0])
    ensures Number(s, default) >= 0
  {
  }

  /** The captures of the two-digit groups are digits. */
  predicate Plain(c: Captures) {
    && (c.month != "" ==> Decimals.IsDigit(c.month[0])) && (c.day != "" ==> Decimals.IsDigit(c.day[0]))
    && (c.hour != "" ==> Decimals.IsDigit(c.hour[0])) && (c.minute != "" ==> Decimals.IsDigit(c.minute[0]))
    && (c.second != "" ==> Decimals.IsDigit(c.second[0]))
    && (c.zoneHour != "" ==> Decimals.IsDigit(c.zoneHour[0])) && (c.zoneMinute != "" ==> Decimals.IsDigit(c.zoneMinute[0]))
  }

  lemma {:induction false} ZoneIsPlain(c: Captures, s: string)
    requires Plain(c)
    ensures MatchZone(c, s).Some? ==> Plain(MatchZone(c, s).value)
  {
    hide Decimals.IsDigit;
    if |s| == 6 && TwoDigits(s[1..]) && TwoDigits(s[4..]) {
      assert s[1..3][0] == s[1..][0] && s[4..6][0] == s[4..][0];
    }
  }

  lemma {:induction false} SecondIsPlain(c: Captures, s: string)
    requires Plain(c)
    ensures MatchSecond(c, s).Some? ==> Plain(MatchSecond(c, s).value)
  {
    hide MatchZone;
    if s != "" && s[0] == ':' {
      if TwoDigits(s[1..]) {
        var c1, rest := c.(second := s[1..3]), s[3..];
        var n := if rest != "" && rest[0] == '.' then DigitRun(rest[1..]) else 0;
        if n > 0 {
          ZoneIsPlain(c1.(fraction := rest[1..1 + n]), rest[1 + n..]);
        } else {
          ZoneIsPlain(c1, rest);
        }
      }
    } else {
      ZoneIsPlain(c, s);
    }
  }

  lemma {:induction false} TimeIsPlain(c: Captures, s: string)
    requires Plain(c)
    ensures MatchTime(c, s).Some? ==> Plain(MatchTime(c, s).value)
  {
    hide MatchSecond;
    if |s| >= 6 && TwoDigits(s[1..]) && TwoDigits(s[4..]) {
      SecondIsPlain(c.(hour := s[1..3], minute := s[4..6]), s[6..]);
    }
  }

  lemma {:induction false} MatchIsPlain(s: string)
    requires Match(s).Some?
    ensures Plain(Match(s).value)
  {
    hide MatchTime;
    var n := if s[0] == '+' || s[0] == '-' then 7 else 4;
    var c := NOTHING.(year := s[..n]);
    var rest := s[n..];
    assert Match(s) == MatchMonth(c, rest);
    if rest != "" {
      var c1, rest1 := c.(month := rest[1..3]), rest[3..];
      if rest1 != "" {
        TimeIsPlain(c1.(day := rest1[1..3]), rest1[3..]);
      }
    }
  }

  lemma {:induction false} Shift(days: int, hour: int, minute: int, second: int, ms: int, sign: int, zoneHour: int, zoneMinute: int)
    ensures (((days * 24 + hour + zoneHour * sign) * 60 + minute + zoneMinute * sign) * 60 + second) * 1000 + ms
            == (((days * 24 + hour) * 60 + minute) * 60 + second) * 1000 + ms + sign * (zoneHour * 60 + zoneMinute) * 60000
  {
    var a, b := zoneHour * sign, zoneMinute * sign;
    assert sign * (zoneHour * 60 + zoneMinute) == a * 60 + b;
  }

  lemma {:induction false} InRangeIff(c: Captures)
    requires Plain(c)
    ensures InRange(c) <==> IsMoment(FieldsIn(c)) && IsZone(c)
  {
    hide Number, Millis, DayFromMonth, MonthLength, YearStart, MonthStart, Plain;
    NumbersOf(c);
    var d := DateIn(c);
    if 0 <= d.month < 12 {
      DayCount(d.year, d.month);
    }
  }

  lemma {:induction false} NumbersOf(c: Captures)
    requires Plain(c)
    ensures Number(c.hour, 0) >= 0 && Number(c.minute, 0) >= 0 && Number(c.second, 0) >= 0 && Millis(c.fraction) >= 0
  {
    Unsigned(c.hour, 0);
    Unsigned(c.minute, 0);
    Unsigned(c.second, 0);
  }

  lemma {:induction false} ResultIs(c: Captures)
    requires IsDate(DateIn(c))
    ensures Result(c) == TimeValue(FieldsIn(c)) - Offset(c)
  {
    hide Number, Millis, DayFromMonth, MonthLength, YearStart, MonthStart;
    var f := FieldsIn(c);
    DayCount(f.date.year, f.date.month);
    Shift(DayNumber(f.date), f.hour, f.minute, f.second, f.ms,
          if c.sign == "-" then 1 else -1, Number(c.zoneHour, 0), Number(c.zoneMinute, 0));
  }

  /**
    A string of the format is accepted exactly if it names a moment of the calendar and a zone; the
    result is that moment's time value, moved by the zone.
  */
  lemma {:induction false} AcceptsMoments(s: string)
    requires Match(s).Some?
    ensures var c := Match(s).value;
            ParseShim(s) ==
            if !IsMoment(FieldsIn(c)) || !IsZone(c) then NotANumber
            else
              var t := TimeValue(FieldsIn(c)) - Offset(c);
              if c.hour != "" && c.zone == "" then Local(t)
              else if -MAX_TIME <= t <= MAX_TIME then Instant(t)
              else NotANumber
  {
    hide Match, InRange, Result, IsTime, TimeValue, Offset, IsZone, IsDate;
    var c := Match(s).value;
    MatchIsPlain(s);
    InRangeIff(c);
    if IsMoment(FieldsIn(c)) {
      ResultIs(c);
    }
  }

  // ------------------------------------------------------------------------
  // There and back
  // ------------------------------------------------------------------------

  lemma {:induction false} PaddedNumber(n: nat, k: nat)
    requires 0 < k && n < Decimals.Pow(10, k)
    ensures Decimals.Parse(Decimals.Padded(n, k)) == n
  {
    hide Decimals.Pow, Decimals.Padded, Decimals.Decimal, Decimals.Parse;
    Decimals.PaddedDecimal(n, k);
    var d := Decimals.Decimal(n);
    Decimals.ParseJoin(Decimals.Zeros(k - |d|), d);
    Decimals.ParseZeros(k - |d|);
    Decimals.ParseDecimal(n);
  }

  /** A two-digit field between the text before and after it. */
  lemma {:induction false} TwoAfter(mark: char, n: int, rest: string)
    requires 0 <= n < 100
    ensures var s := [mark] + Decimals.Padded(n, 2) + rest;
            |s| >= 3 && s[0] == mark && TwoDigits(s[1..]) && s[1..3] == Decimals.Padded(n, 2) && s[3..] == rest
            && Number(s[1..3], 0) == n && Number(s[1..3], 1) == n
  {
    hide Decimals.Padded, Decimals.Pow, Decimals.Parse;
    Powers();
    PaddedNumber(n, 2);
    var p := Decimals.Padded(n, 2);
    var s := [mark] + p + rest;
    assert s[1] == p[0] && s[2] == p[1];
    assert s[1..3] == p && s[3..] == rest;
    assert s[1..][0] == s[1] && s[1..][1] == s[2];
  }

  /** A run of digits ends where something else follows. */
  lemma {:induction false} RunOf(p: string, rest: string)
    requires AllDigits(p) && rest != "" && !Decimals.IsDigit(rest[0])
    ensures DigitRun(p + rest) == |p|
    decreases |p|
  {
    if p == "" {
      assert p + rest == rest;
    } else {
      assert (p + rest)[1..] == p[1..] + rest;
      RunOf(p[1..], rest);
    }
  }

  // ------------------------------------------------------------------------
  // Texts of the format
  // ------------------------------------------------------------------------

  /** The end of a time: nothing, the letter Z, or how far ahead of UTC, or behind it, in hours and minutes. */
  datatype Zone = Unzoned | Utc | Apart(ahead: bool, hours: nat, minutes: nat)

  /**
    What a text of the format consists of: a year, with a sign if it has six digits, and so many parts more, of which
    the first five are month, day, time, second and fraction of a second.
  */
  datatype Stamp = Stamp(sign: string, year: nat, month: nat, day: nat, hour: nat, minute: nat, second: nat, digits: string,
                         zone: Zone, parts: nat)

  /** All numbers have the digits that they have in the text. */
  predicate Fits(w: Stamp) {
    && w.sign in {"", "+", "-"} && w.year < (if w.sign == "" then 10000 else 1000000)
    && w.month < 100 && w.day < 100 && w.hour < 100 && w.minute < 100 && w.second < 100
    && w.digits != "" && AllDigits(w.digits) && w.parts <= 5
    && (w.zone.Apart? ==> w.zone.hours < 100 && w.zone.minutes < 100)
  }

  function ZoneText(z: Zone): string {
    match z
    case Unzoned => ""
    case Utc => "Z"
    case Apart(ahead, hours, minutes) =>
      (if ahead then "+" else "-") + Decimals.Padded(hours, 2) + ":" + Decimals.Padded(minutes, 2)
  }

  /** The text, from each part on to the end. */
  function FractionOn(w: Stamp): string {
    (if w.parts >= 5 then "." + w.digits else "") + ZoneText(w.zone)
  }

  function SecondOn(w: Stamp): string {
    (if w.parts >= 4 then ":" + Decimals.Padded(w.second, 2) else "") + FractionOn(w)
  }

  function TimeOn(w: Stamp): string {
    if w.parts < 3 then "" else "T" + Decimals.Padded(w.hour, 2) + ":" + Decimals.Padded(w.minute, 2) + SecondOn(w)
  }

  function DayOn(w: Stamp): string {
    if w.parts < 2 then "" else "-" + Decimals.Padded(w.day, 2) + TimeOn(w)
  }

  function MonthOn(w: Stamp): string {
    if w.parts < 1 then "" else "-" + Decimals.Padded(w.month, 2) + DayOn(w)
  }

  function StampText(w: Stamp): string {
    w.sign + Decimals.Padded(w.year, if w.sign == "" then 4 else 6) + MonthOn(w)
  }

  /** What the text says: what is not given is the first month or day, and zero. The first three digits of a fraction count. */
  function StampFields(w: Stamp): Fields {
    Fields(Date(if w.sign == "-" then 0 - w.year else w.year, if w.parts < 1 then 0 else w.month - 1, if w.parts < 2 then 1 else w.day),
           if w.parts < 3 then 0 else w.hour, if w.parts < 3 then 0 else w.minute, if w.parts < 4 then 0 else w.second,
           if w.parts < 5 then 0 else Decimals.Parse((w.digits + "000")[..3]))
  }

  /** How far the zone is ahead of UTC, in minutes; dates without a time are in UTC. */
  function Ahead(w: Stamp): int {
    if w.parts < 3 || !w.zone.Apart? then 0
    else (if w.zone.ahead then 1 else -1) * (60 * w.zone.hours + w.zone.minutes)
  }

  predicate ZoneExists(w: Stamp) {
    w.parts >= 3 && w.zone.Apart? ==> w.zone.hours < 24 && w.zone.minutes < 60
  }

  /** What the groups of the expression capture of such a text. */
  function Captured(w: Stamp): Captures {
    var two := (n: nat) => Decimals.Padded(n, 2);
    var c := NOTHING.(year := w.sign + Decimals.Padded(w.year, if w.sign == "" then 4 else 6),
                      month := if w.parts >= 1 then two(w.month) else "", day := if w.parts >= 2 then two(w.day) else "",
                      hour := if w.parts >= 3 then two(w.hour) else "", minute := if w.parts >= 3 then two(w.minute) else "",
                      second := if w.parts >= 4 then two(w.second) else "", fraction := if w.parts >= 5 then w.digits else "");
    if w.parts < 3 || w.zone.Unzoned? then c
    else if w.zone.Utc? then c.(zone := "Z")
    else c.(zone := ZoneText(w.zone), sign := if w.zone.ahead then "+" else "-",
            zoneHour := two(w.zone.hours), zoneMinute := two(w.zone.minutes))
  }

  lemma {:induction false} RunOfAll(p: string)
    requires AllDigits(p)
    ensures DigitRun(p) == |p|
    decreases |p|
  {
    if p != "" {
      RunOfAll(p[1..]);
    }
  }

  lemma {:induction false} ReadZone(c: Captures, z: Zone)
    requires z.Apart? ==> z.hours < 100 && z.minutes < 100
    ensures MatchZone(c, ZoneText(z)) ==
      Some(match z
           case Unzoned => c
           case Utc => c.(zone := "Z")
           case Apart(ahead, hours, minutes) =>
             c.(zone := ZoneText(z), sign := if ahead then "+" else "-", zoneHour := Decimals.Padded(hours, 2), zoneMinute := Decimals.Padded(minutes, 2)))
  {
    hide Decimals.Padded;
    if z.Apart? {
      var s, h, m := ZoneText(z), Decimals.Padded(z.hours, 2), Decimals.Padded(z.minutes, 2);
      var mark := if z.ahead then '+' else '-';
      assert s == [mark] + h + ([':'] + m + "");
      TwoAfter(mark, z.hours, [':'] + m + "");
      TwoAfter(':', z.minutes, "");
      assert s[3..] == [':'] + m + "" && s[4..] == ([':'] + m + "")[1..] && s[4..6] == ([':'] + m + "")[1..3];
      assert s[..1] == [mark];
    }
  }

  lemma {:induction false} ZoneStart(z: Zone)
    ensures ZoneText(z) == "" || (!Decimals.IsDigit(ZoneText(z)[0]) && ZoneText(z)[0] != ':' && ZoneText(z)[0] != '.')
  {
  }

  lemma {:induction false} ReadFraction(c: Captures, w: Stamp)
    requires Fits(w)
    ensures MatchFraction(c, FractionOn(w)) == MatchZone(c.(fraction := if w.parts >= 5 then w.digits else c.fraction), ZoneText(w.zone))
  {
    hide MatchZone, ZoneText, Decimals.IsDigit;
    var z := ZoneText(w.zone);
    ZoneStart(w.zone);
    if w.parts >= 5 {
      var s, n := FractionOn(w), |w.digits|;
      assert s[1..] == w.digits + z && s[1..1 + n] == w.digits && s[1 + n..] == z;
      if z == "" {
        assert w.digits + z == w.digits;
        RunOfAll(w.digits);
      } else {
        RunOf(w.digits, z);
      }
    } else {
      assert FractionOn(w) == z;
    }
  }

  lemma {:induction false} ReadSecond(c: Captures, w: Stamp)
    requires Fits(w)
    ensures MatchSecond(c, SecondOn(w)) ==
      (var c1 := if w.parts >= 4 then c.(second := Decimals.Padded(w.second, 2)) else c;
       MatchZone(if w.parts >= 5 then c1.(fraction := w.digits) else c1, ZoneText(w.zone)))
  {
    hide MatchZone, ZoneText, Decimals.Padded, MatchFraction, FractionOn;
    if w.parts >= 4 {
      assert SecondOn(w) == [':'] + Decimals.Padded(w.second, 2) + FractionOn(w);
      TwoAfter(':', w.second, FractionOn(w));
      ReadFraction(c.(second := Decimals.Padded(w.second, 2)), w);
    } else {
      ZoneStart(w.zone);
      FractionIsZone(w);
      assert SecondOn(w) == "" + FractionOn(w) == FractionOn(w);
    }
  }

  lemma {:induction false} FractionIsZone(w: Stamp)
    requires w.parts < 5
    ensures FractionOn(w) == ZoneText(w.zone)
  {
    assert "" + ZoneText(w.zone) == ZoneText(w.zone);
  }

  lemma {:induction false} ReadTime(c: Captures, w: Stamp)
    requires Fits(w)
    ensures w.parts < 3 ==> MatchTime(c, TimeOn(w)) == Some(c)
    ensures w.parts >= 3 ==>
      MatchTime(c, TimeOn(w)) == MatchSecond(c.(hour := Decimals.Padded(w.hour, 2), minute := Decimals.Padded(w.minute, 2)), SecondOn(w))
  {
    hide Decimals.Padded, MatchSecond, SecondOn;
    if w.parts >= 3 {
      var h, m, t := Decimals.Padded(w.hour, 2), Decimals.Padded(w.minute, 2), TimeOn(w);
      var tail := [':'] + m + SecondOn(w);
      assert t == ['T'] + h + tail;
      TwoAfter('T', w.hour, tail);
      TwoAfter(':', w.minute, SecondOn(w));
      assert t[3..] == tail && t[3] == ':' && t[4..] == tail[1..] && t[4..6] == tail[1..3] && t[6..] == tail[3..];
    }
  }

  lemma {:induction false} ReadMonth(c: Captures, w: Stamp)
    requires Fits(w)
    ensures MatchMonth(c, MonthOn(w)) ==
      (if w.parts < 1 then Some(c)
       else if w.parts < 2 then Some(c.(month := Decimals.Padded(w.month, 2)))
       else MatchTime(c.(month := Decimals.Padded(w.month, 2), day := Decimals.Padded(w.day, 2)), TimeOn(w)))
  {
    hide Decimals.Padded, MatchTime, TimeOn;
    if w.parts >= 1 {
      assert MonthOn(w) == ['-'] + Decimals.Padded(w.month, 2) + DayOn(w);
      TwoAfter('-', w.month, DayOn(w));
      if w.parts >= 2 {
        assert DayOn(w) == ['-'] + Decimals.Padded(w.day, 2) + TimeOn(w);
        TwoAfter('-', w.day, TimeOn(w));
      }
    }
  }

  lemma {:induction false} ReadYear(sign: string, y: nat, rest: string)
    requires sign in {"", "+", "-"} && y < (if sign == "" then 10000 else 1000000)
    ensures var t := sign + Decimals.Padded(y, if sign == "" then 4 else 6);
            && Match(t + rest) == MatchMonth(NOTHING.(year := t), rest)
            && Number(t, 0) == if sign == "-" then 0 - y else y
  {
    hide Decimals.Padded, Decimals.Parse, MatchMonth;
    Powers();
    hide Decimals.Pow;
    var p := Decimals.Padded(y, if sign == "" then 4 else 6);
    var t := sign + p;
    var s := t + rest;
    assert s[..|t|] == t && s[|t|..] == rest;
    if sign == "" {
      PaddedNumber(y, 4);
      assert t == p && s[0] == p[0];
    } else {
      PaddedNumber(y, 6);
      assert t[1..] == p && s[1..7] == p;
      assert s[0] == sign[0];
    }
  }

  /** A text of the format matches, with its numbers captured. */
  lemma {:induction false} StampMatches(w: Stamp)
    requires Fits(w)
    ensures Match(StampText(w)) == Some(Captured(w))
  {
    hide Decimals.Padded, Match, MatchMonth, MatchTime, MatchSecond, MatchZone, MonthOn, TimeOn, SecondOn, ZoneText, Number;
    ReadYear(w.sign, w.year, MonthOn(w));
    var t := w.sign + Decimals.Padded(w.year, if w.sign == "" then 4 else 6);
    assert StampText(w) == t + MonthOn(w);
    var c := NOTHING.(year := t);
    ReadMonth(c, w);
    var c2 := c.(month := Decimals.Padded(w.month, 2), day := Decimals.Padded(w.day, 2));
    ReadTime(c2, w);
    var c3 := c2.(hour := Decimals.Padded(w.hour, 2), minute := Decimals.Padded(w.minute, 2));
    ReadSecond(c3, w);
    var c4 := if w.parts >= 4 then c3.(second := Decimals.Padded(w.second, 2)) else c3;
    ReadZone(if w.parts >= 5 then c4.(fraction := w.digits) else c4, w.zone);
  }

  lemma {:induction false} PaddedParse(s: string)
    requires AllDigits(s)
    ensures Decimals.Padded(Decimals.Parse(s), |s|) == s && Decimals.Parse(s) < Decimals.Pow(10, |s|)
    decreases |s|
  {
    ParseBelow(s);
    if s != "" {
      var init, last := s[..|s| - 1], s[|s| - 1];
      assert AllDigits(init) && Decimals.IsDigit(last);
      PaddedParse(init);
      assert Decimals.Parse(s) / 10 == Decimals.Parse(init) && Decimals.Parse(s) % 10 == Decimals.DigitValue(last);
      assert Decimals.Digit(Decimals.DigitValue(last)) == last;
      assert s == init + [last];
    }
  }

  lemma {:induction false} TwoAre(s: string) returns (n: nat)
    requires TwoDigits(s)
    ensures n < 100 && s == Decimals.Padded(n, 2) + s[2..]
  {
    hide Decimals.Padded, Decimals.Parse;
    Powers();
    var d := s[..2];
    assert AllDigits(d) && s == d + s[2..];
    PaddedParse(d);
    n := Decimals.Parse(d);
  }

  /** A text of which only the end is looked at. */
  function Partial(second: nat, digits: string, zone: Zone, parts: nat): Stamp {
    Stamp("", 0, 0, 0, 0, 0, second, digits, zone, parts)
  }

  lemma {:induction false} ZoneIs(c: Captures, s: string) returns (z: Zone)
    requires MatchZone(c, s).Some?
    ensures ZoneText(z) == s && (z.Apart? ==> z.hours < 100 && z.minutes < 100)
  {
    hide Decimals.Padded;
    if s == "" {
      z := Unzoned;
    } else if s == "Z" {
      z := Utc;
    } else {
      var h := TwoAre(s[1..]);
      var m := TwoAre(s[4..]);
      z := Apart(s[0] == '+', h, m);
      assert s[1..][2..] == s[3..] && s[3..] == ":" + s[4..] && s[4..][2..] == "" && s == s[..1] + s[1..];
      assert s[1..] == Decimals.Padded(h, 2) + (":" + Decimals.Padded(m, 2));
      assert s == s[..1] + Decimals.Padded(h, 2) + ":" + Decimals.Padded(m, 2);
    }
  }

  lemma {:induction false} FractionIs(c: Captures, s: string, second: nat) returns (w: Stamp)
    requires MatchFraction(c, s).Some? && second < 100
    ensures Fits(w) && w.parts in {4, 5} && w.second == second && FractionOn(w) == s
  {
    hide MatchZone, ZoneText;
    if s != "" && s[0] == '.' {
      var n := DigitRun(s[1..]);
      var d := s[1..1 + n];
      assert d == s[1..][..n];
      var z := ZoneIs(c.(fraction := d), s[1 + n..]);
      w := Partial(second, d, z, 5);
      assert s == "." + d + s[1 + n..];
    } else {
      var z := ZoneIs(c, s);
      w := Partial(second, "0", z, 4);
      assert "" + s == s;
    }
  }

  lemma {:induction false} SecondIs(c: Captures, s: string) returns (w: Stamp)
    requires MatchSecond(c, s).Some?
    ensures Fits(w) && 3 <= w.parts && SecondOn(w) == s
  {
    hide MatchZone, ZoneText, MatchFraction, FractionOn, Decimals.Padded;
    if s != "" && s[0] == ':' {
      var n := TwoAre(s[1..]);
      w := FractionIs(c.(second := s[1..3]), s[3..], n);
      assert s == ":" + s[1..] && s[1..][2..] == s[3..];
      assert s == ":" + Decimals.Padded(n, 2) + s[3..];
    } else {
      var z := ZoneIs(c, s);
      w := Partial(0, "0", z, 3);
      FractionIsZone(w);
      assert "" + s == s;
    }
  }

  lemma {:induction false} TimeIs(c: Captures, s: string) returns (w: Stamp)
    requires MatchTime(c, s).Some?
    ensures Fits(w) && 2 <= w.parts && TimeOn(w) == s
  {
    hide MatchSecond, Decimals.Padded;
    if s == "" {
      w := Partial(0, "0", Unzoned, 2);
    } else {
      var h := TwoAre(s[1..]);
      var m := TwoAre(s[4..]);
      var v := SecondIs(c.(hour := s[1..3], minute := s[4..6]), s[6..]);
      w := v.(hour := h, minute := m);
      assert SecondOn(w) == SecondOn(v);
      assert s == "T" + s[1..] && s[1..][2..] == s[3..] && s[3..] == ":" + s[4..] && s[4..][2..] == s[6..];
      assert s == "T" + Decimals.Padded(h, 2) + ":" + Decimals.Padded(m, 2) + s[6..];
    }
  }

  lemma {:induction false} MonthIs(c: Captures, s: string) returns (w: Stamp)
    requires MatchMonth(c, s).Some?
    ensures Fits(w) && w.sign == "" && w.year == 0 && MonthOn(w) == s
  {
    hide MatchTime, Decimals.Padded, TimeOn;
    if s == "" {
      w := Partial(0, "0", Unzoned, 0);
    } else {
      var n := TwoAre(s[1..]);
      var rest := s[3..];
      assert s == "-" + s[1..] && s[1..][2..] == rest;
      assert s == "-" + Decimals.Padded(n, 2) + rest;
      if rest == "" {
        w := Partial(0, "0", Unzoned, 1).(month := n);
        assert DayOn(w) == rest;
      } else {
        var d := TwoAre(rest[1..]);
        var v := TimeIs(c.(month := s[1..3]).(day := rest[1..3]), rest[3..]);
        w := v.(sign := "", year := 0, month := n, day := d);
        SameTime(v, w);
        assert rest == "-" + rest[1..] && rest[1..][2..] == rest[3..];
        assert rest == "-" + Decimals.Padded(d, 2) + rest[3..];
        assert DayOn(w) == rest;
      }
    }
  }

  lemma {:induction false} SameTime(v: Stamp, w: Stamp)
    requires w == v.(sign := w.sign, year := w.year, month := w.month, day := w.day)
    ensures TimeOn(w) == TimeOn(v)
  {
    hide Decimals.Padded;
  }

  /** Every string that matches is a text of the format. */
  lemma {:induction false} MatchIsStamp(s: string) returns (w: Stamp)
    requires Match(s).Some?
    ensures Fits(w) && StampText(w) == s
  {
    hide MatchMonth, Decimals.Padded, Decimals.Parse, MonthOn;
    Powers();
    hide Decimals.Pow;
    var signed := s[0] == '+' || s[0] == '-';
    var n := if signed then 7 else 4;
    var sign, digits := if signed then s[..1] else "", if signed then s[1..7] else s[..4];
    var v := MonthIs(NOTHING.(year := s[..n]), s[n..]);
    PaddedParse(digits);
    assert signed ==> s[..1] == [s[0]];
    w := v.(sign := sign, year := Decimals.Parse(digits));
    SameMonth(v, w);
    assert s == sign + digits + s[n..];
  }

  lemma {:induction false} SameMonth(v: Stamp, w: Stamp)
    requires w == v.(sign := w.sign, year := w.year)
    ensures MonthOn(w) == MonthOn(v)
  {
    hide Decimals.Padded;
  }

  /** The host's own `parse` is asked exactly for the strings that are not of the format. */
  lemma {:induction false} NativeIff(s: string)
    ensures ParseShim(s) == Native <==> forall w :: Fits(w) ==> StampText(w) != s
  {
    hide Match, StampText, InRange, Result;
    if Match(s).Some? {
      var w := MatchIsStamp(s);
    }
    if w :| Fits(w) && StampText(w) == s {
      StampMatches(w);
    }
  }

  // ------------------------------------------------------------------------
  // What such a text says
  // ------------------------------------------------------------------------

  lemma {:induction false} ParseBelow(s: string)
    requires AllDigits(s)
    ensures Decimals.Parse(s) < Decimals.Pow(10, |s|)
    decreases |s|
  {
    if s != "" {
      var init := s[..|s| - 1];
      assert s[|s| - 1] == s[|init|] && AllDigits(init);
      ParseBelow(init);
      Decimals.PowAdd(10, |init|, 1);
      assert Decimals.Raised(10, 0) == 1 && Decimals.Pow(10, 1) == 10;
    }
  }

  lemma {:induction false} LeadingDigits(a: nat, b: nat, p: nat)
    requires b < p
    ensures (a * p + b) * 1000 / (p * 1000) == a
  {
    assert (a * p + b) * 1000 == a * (p * 1000) + b * 1000;
    var q := p * 1000;
    assert 0 <= b * 1000 < q;
    Arithmetic.Quotient(a * q + b * 1000, q, a, b * 1000);
  }

  /** The whole milliseconds of a fraction are its first three digits, with zeros for missing ones. */
  lemma {:induction false} MillisAreDigits(d: string)
    requires AllDigits(d) && d != ""
    ensures Millis(d) == Decimals.Parse((d + "000")[..3])
  {
    hide Decimals.Pow, Decimals.Parse;
    Powers();
    ZerosAre("00");
    ZerosAre("0");
    OnePower();
    if |d| >= 3 {
      var a, b := d[..3], d[3..];
      assert (d + "000")[..3] == a && d == a + b;
      Decimals.ParseJoin(a, b);
      assert AllDigits(b);
      ParseBelow(b);
      Decimals.PowAdd(10, |b|, 3);
      LeadingDigits(Decimals.Parse(a), Decimals.Parse(b), Decimals.Pow(10, |b|));
    } else if |d| == 2 {
      assert (d + "000")[..3] == d + "0";
      Decimals.ParseJoin(d, "0");
      Decimals.ParseZeros(1);
    } else {
      assert (d + "000")[..3] == d + "00";
      Decimals.ParseJoin(d, "00");
      Decimals.ParseZeros(2);
    }
  }

  lemma {:induction false} OnePower()
    ensures Decimals.Pow(10, 1) == 10
  {
    assert Decimals.Raised(10, 0) == 1;
  }

  lemma {:induction false} TwoNumber(n: nat, default: nat)
    requires n < 100
    ensures Number(Decimals.Padded(n, 2), default) == n && Decimals.Padded(n, 2) != ""
  {
    hide Number, Decimals.Padded;
    TwoAfter('-', n, "");
    assert Number(Decimals.Padded(n, 2), default) == Number(Decimals.Padded(n, 2), 0) by {
      NumberOfDigits(Decimals.Padded(n, 2), default);
    }
  }

  lemma {:induction false} NumberOfDigits(s: string, default: nat)
    requires s != ""
    ensures Number(s, default) == Number(s, 0)
  {
  }

  lemma {:induction false} CapturedSays(w: Stamp)
    requires Fits(w)
    ensures var c := Captured(w);
            && FieldsIn(c) == StampFields(w) && Offset(c) == Ahead(w) * 60000 && (IsZone(c) <==> ZoneExists(w))
            && (c.hour != "" && c.zone == "" <==> w.parts >= 3 && w.zone.Unzoned?)
  {
    hide Number, Millis, Decimals.Padded, Decimals.Parse, Match, ZoneText;
    ReadYear(w.sign, w.year, "");
    TwoNumber(w.month, 1);
    TwoNumber(w.day, 1);
    TwoNumber(w.hour, 0);
    TwoNumber(w.minute, 0);
    TwoNumber(w.second, 0);
    MillisAreDigits(w.digits);
    NothingNumbers();
    if w.zone.Apart? {
      TwoNumber(w.zone.hours, 0);
      TwoNumber(w.zone.minutes, 0);
      assert ZoneText(w.zone) != "" by {
        ZoneNotEmpty(w.zone);
      }
    }
  }

  lemma {:induction false} ZoneNotEmpty(z: Zone)
    requires z.Apart?
    ensures ZoneText(z) != ""
  {
  }

  lemma {:induction false} NothingNumbers()
    ensures Number("", 0) == 0 && Number("", 1) == 1 && Millis("") == 0
  {
    assert Decimals.Parse("") == 0;
  }

  /**
    `Date.parse` on every text of the format, whatever is left out at its end: NaN unless it names a moment of the
    calendar and a zone that exists; otherwise the moment's time value, moved back by what the zone is ahead of UTC,
    as a local time if there is a time without a zone, and NaN beyond the range of dates.
  */
  lemma {:induction false} ReadsStamps(w: Stamp)
    requires Fits(w)
    ensures ParseShim(StampText(w)) ==
      var f := StampFields(w);
      if !IsMoment(f) || !ZoneExists(w) then NotANumber
      else
        var t := TimeValue(f) - Ahead(w) * 60000;
        if w.parts >= 3 && w.zone.Unzoned? then Local(t)
        else if -8_640_000_000_000_000 <= t <= 8_640_000_000_000_000 then Instant(t)
        else NotANumber
  {
    hide Match, Captured, StampText, StampFields, Ahead, ZoneExists, FieldsIn, Offset, IsZone, TimeValue, IsMoment, ParseShim;
    StampMatches(w);
    CapturedSays(w);
    AcceptsMoments(StampText(w));
  }

  /** Reading what was written gives the instant that was written. */
  lemma {:induction false} ReadsWhatItWrites(f: Fields)
    requires Valid(f) && -999999 <= f.date.year <= 999999
    ensures ParseShim(Layout(f)) == if -MAX_TIME <= TimeValue(f) <= MAX_TIME then Instant(TimeValue(f)) else NotANumber
  {
    hide Decimals.Padded, Decimals.Parse, TimeValue, ParseShim, StampText, StampFields, Layout, IsMoment, Ahead, MonthLength;
    DaysFew(f.date);
    var w := WrittenAs(f);
    LayoutIsStamp(f);
    WrittenSays(f);
    ReadsStamps(w);
  }

  /** The parts of the text that `toISOString` writes. */
  function WrittenAs(f: Fields): Stamp
    requires Valid(f)
  {
    Stamp(if f.date.year < 0 then "-" else if f.date.year > 9999 then "+" else "", Abs(f.date.year), f.date.month + 1, f.date.day,
          f.hour, f.minute, f.second, Decimals.Padded(f.ms, 3), Utc, 5)
  }

  lemma {:induction false} LayoutIsStamp(f: Fields)
    requires Valid(f) && -999999 <= f.date.year <= 999999
    ensures Fits(WrittenAs(f)) && StampText(WrittenAs(f)) == Layout(f)
  {
    hide Decimals.Padded, MonthLength;
    DaysFew(f.date);
    var w := WrittenAs(f);
    assert FractionOn(w) == FromMs(f);
    assert SecondOn(w) == FromSecond(f);
    assert TimeOn(w) == FromHour(f);
    assert MonthOn(w) == FromMonth(f);
    var digits := Decimals.Padded(Abs(f.date.year), if w.sign == "" then 4 else 6);
    assert w.sign + digits == YearText(f.date.year);
  }

  lemma {:induction false} WrittenSays(f: Fields)
    requires Valid(f)
    ensures StampFields(WrittenAs(f)) == f && Ahead(WrittenAs(f)) == 0 && IsMoment(f)
  {
    hide Decimals.Padded, Decimals.Parse, MonthLength;
    Powers();
    hide Decimals.Pow;
    PaddedNumber(f.ms, 3);
    var d := Decimals.Padded(f.ms, 3);
    assert (d + "000")[..3] == d;
  }

  /** Instants that a date can hold have years of six digits at most. */
  lemma {:induction false} YearsFit(f: Fields)
    requires Valid(f) && -MAX_TIME <= TimeValue(f) <= MAX_TIME
    ensures -999999 <= f.date.year <= 999999
  {
    hide IsDate, DayNumber, YearStart, MonthStart;
    var n := DayNumber(f.date);
    assert -100000001 <= n <= 100000001;
    DayBounds(f.date);
    YearStartIs(f.date.year);
  }

  lemma {:induction false} DayBounds(d: Date)
    requires IsDate(d)
    ensures YearStart(d.year) <= DayNumber(d) < YearStart(d.year) + 366
  {
    hide YearStart;
    MonthTable(d.year, d.month);
    DaysFew(d);
    TwelveMonths(d.year);
    MonthsGrow(d.year, d.month, 12);
    NotNegative(d.year, d.year, d.month);
  }

  /** `Date.parse` undoes `toISOString`, for every instant that a date can hold. */
  lemma {:induction false} ParseUndoesToISOString(t: int)
    requires -MAX_TIME <= t <= MAX_TIME
    ensures ParseShim(Layout(FieldsOf(t))) == Instant(t)
  {
    hide ParseShim, Layout, FieldsOf, TimeValue;
    TimeOfFields(t);
    YearsFit(FieldsOf(t));
    ReadsWhatItWrites(FieldsOf(t));
  }
}
