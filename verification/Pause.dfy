/** The owner's pause switch: reading its date, and what it answers (edge/src/pause.ts:49-115).

    Building a time from date fields, with fields past their range carried over, and reading fields off a
    time are those of section 21.4.1 of ECMA-262 (2021 and later editions).
 */
module Pause {
  import opened Budget
  import opened Pacing
  import opened Text

  const MS_PER_SECOND := 1000
  const RETRY_AFTER_API_PAUSED_UNKNOWN_S := 3600

  datatype Fields = Fields(year: int, month: int, day: int, hour: int, minute: int, second: int)

  // ----- the calendar: times as the language builds and reads them -----

  predicate IsLeap(year: int) { year % 4 == 0 && (year % 100 != 0 || year % 400 == 0) }

  function Leap(year: int): int { if IsLeap(year) then 1 else 0 }

  /** Days from 1970-01-01 to the first of a year. */
  function DayFromYear(year: int): int {
    365 * (year - 1970) + (year - 1969) / 4 - (year - 1901) / 100 + (year - 1601) / 400
  }

  /** Days of a year before the month counted from 0. */
  function DaysBefore(month: int, leap: int): int
    requires 0 <= month <= 12
  {
    if month == 0 then 0 else if month == 1 then 31 else
    leap + if month == 2 then 59 else if month == 3 then 90 else if month == 4 then 120 else if month == 5 then 151
    else if month == 6 then 181 else if month == 7 then 212 else if month == 8 then 243 else if month == 9 then 273
    else if month == 10 then 304 else if month == 11 then 334 else 365
  }

  /** The day number of a date; months from 0, and any month or day outside its range carries over. */
  function MakeDay(year: int, month: int, day: int): int {
    var y, m := year + month / 12, month % 12;
    DayFromYear(y) + DaysBefore(m, Leap(y)) + day - 1
  }

  function DateUTC(year: int, month: int, day: int, hour: int, minute: int, second: int): int {
    var y := if 0 <= year <= 99 then 1900 + year else year;
    MakeDay(y, month, day) * DAY_MS + hour * 3_600_000 + minute * 60_000 + second * MS_PER_SECOND
  }

  lemma FourthYear(year: int)
    ensures (year - 1968) / 4 == (year - 1969) / 4 + if year % 4 == 0 then 1 else 0
  {
  }

  lemma HundredthYear(year: int)
    ensures (year - 1900) / 100 == (year - 1901) / 100 + if year % 100 == 0 then 1 else 0
    ensures year % 100 == 0 ==> year % 4 == 0
  {
  }

  lemma FourHundredthYear(year: int)
    ensures (year - 1600) / 400 == (year - 1601) / 400 + if year % 400 == 0 then 1 else 0
    ensures year % 400 == 0 ==> year % 100 == 0
  {
  }

  lemma YearLength(year: int)
    ensures DayFromYear(year + 1) == DayFromYear(year) + 365 + Leap(year)
  {
    FourthYear(year);
    HundredthYear(year);
    FourHundredthYear(year);
  }

  /** The year a day lies in, looking from year `y`. */
  function YearFrom(n: int, y: int): (year: int)
    ensures DayFromYear(year) <= n < DayFromYear(year + 1)
    decreases n < DayFromYear(y), if n < DayFromYear(y) then DayFromYear(y) - n else n - DayFromYear(y)
  {
    YearLength(y - 1);
    YearLength(y);
    hide DayFromYear, IsLeap;
    if n < DayFromYear(y) then YearFrom(n, y - 1)
    else if DayFromYear(y + 1) <= n then YearFrom(n, y + 1)
    else y
  }

  function YearOf(n: int): (year: int)
    ensures DayFromYear(year) <= n < DayFromYear(year + 1)
  {
    YearFrom(n, 1970)
  }

  /** The month, from 0, of a day of the year. */
  function MonthIn(dayOfYear: int, leap: int): int {
    if dayOfYear < 31 then 0 else if dayOfYear < 59 + leap then 1 else if dayOfYear < 90 + leap then 2
    else if dayOfYear < 120 + leap then 3 else if dayOfYear < 151 + leap then 4 else if dayOfYear < 181 + leap then 5
    else if dayOfYear < 212 + leap then 6 else if dayOfYear < 243 + leap then 7 else if dayOfYear < 273 + leap then 8
    else if dayOfYear < 304 + leap then 9 else if dayOfYear < 334 + leap then 10 else 11
  }

  datatype Date = Date(year: int, month: int, day: int)

  /** The date read off a day number; months from 1. */
  function DateOf(n: int): Date {
    var year := YearOf(n);
    var dayOfYear := n - DayFromYear(year);
    var month := MonthIn(dayOfYear, Leap(year));
    Date(year, month + 1, dayOfYear - DaysBefore(month, Leap(year)) + 1)
  }

  function ReadUTC(at: int): Fields {
    var date, ms := DateOf(at / DAY_MS), at % DAY_MS;
    Fields(date.year, date.month, date.day, ms / 3_600_000, ms / 60_000 % 60, ms / MS_PER_SECOND % 60)
  }

  // ----- the calendar, day by day -----

  function DaysIn(year: int, month: int): int {
    if month == 2 then 28 + Leap(year)
    else if month in {4, 6, 9, 11} then 30 else 31
  }

  predicate IsDate(d: Date) {
    1 <= d.month <= 12 && 1 <= d.day <= DaysIn(d.year, d.month)
  }

  /** The next day of the Gregorian calendar. */
  function Tomorrow(d: Date): Date {
    if d.day < DaysIn(d.year, d.month) then Date(d.year, d.month, d.day + 1)
    else if d.month < 12 then Date(d.year, d.month + 1, 1)
    else Date(d.year + 1, 1, 1)
  }

  lemma {:induction false} YearsGrow(y: int, z: int)
    requires y <= z
    ensures DayFromYear(y) <= DayFromYear(z)
    decreases z - y
  {
    if y < z {
      YearLength(z - 1);
      YearsGrow(y, z - 1);
    }
  }

  lemma YearIsUnique(n: int, year: int)
    requires DayFromYear(year) <= n < DayFromYear(year + 1)
    ensures YearOf(n) == year
  {
    hide DayFromYear;
    if YearOf(n) < year {
      YearsGrow(YearOf(n) + 1, year);
    } else if year < YearOf(n) {
      YearsGrow(year + 1, YearOf(n));
    }
  }

  /** A date is built on the day it is read off. */
  lemma DateOfIsTheInverse(d: Date)
    requires IsDate(d)
    ensures DateOf(MakeDay(d.year, d.month - 1, d.day)) == d
  {
    hide DayFromYear, IsLeap, YearOf, MakeDay;
    var m := d.month - 1;
    MonthInRange(d.year, m, d.day);
    YearLength(d.year);
    YearIsUnique(MakeDay(d.year, m, d.day), d.year);
  }

  lemma DateOfIsADate(n: int)
    ensures IsDate(DateOf(n))
    ensures MakeDay(DateOf(n).year, DateOf(n).month - 1, DateOf(n).day) == n
  {
    YearLength(YearOf(n));
    hide DayFromYear, IsLeap, YearOf;
  }

  lemma MonthsAddUp(year: int, month: int)
    requires 0 <= month < 12
    ensures DaysBefore(month + 1, Leap(year)) == DaysBefore(month, Leap(year)) + DaysIn(year, month + 1)
    ensures DaysBefore(0, Leap(year)) == 0 && DaysBefore(12, Leap(year)) == 365 + Leap(year)
            && DaysIn(year, month + 1) >= 28
  {
    hide IsLeap;
  }

  lemma MonthInRange(year: int, month: int, day: int)
    requires 0 <= month < 12
    ensures MakeDay(year, month, day) == DayFromYear(year) + DaysBefore(month, Leap(year)) + day - 1
  {
    assert month / 12 == 0 && month % 12 == month;
  }

  lemma DayZero()
    ensures DateOf(0) == Date(1970, 1, 1)
  {
    YearIsUnique(0, 1970);
  }

  lemma TomorrowIsOneLater(d: Date)
    requires IsDate(d)
    ensures var next := Tomorrow(d);
            IsDate(next) && MakeDay(next.year, next.month - 1, next.day) == MakeDay(d.year, d.month - 1, d.day) + 1
  {
    hide MakeDay, DayFromYear, Leap, DaysBefore, DaysIn;
    YearLength(d.year);
    MonthsAddUp(d.year, d.month - 1);
    MonthsAddUp(Tomorrow(d).year, Tomorrow(d).month - 1);
    MonthInRange(d.year, d.month - 1, d.day);
    MonthInRange(Tomorrow(d).year, Tomorrow(d).month - 1, Tomorrow(d).day);
  }

  /** Day numbers count the days of the calendar: the first is 1970-01-01, and each next one the day after. */
  lemma DaysFollowTheCalendar(n: int)
    ensures DateOf(0) == Date(1970, 1, 1)
    ensures DateOf(n + 1) == Tomorrow(DateOf(n))
  {
    hide MakeDay, IsDate, Tomorrow, DateOf;
    DayZero();
    DateOfIsADate(n);
    TomorrowIsOneLater(DateOf(n));
    DateOfIsTheInverse(Tomorrow(DateOf(n)));
  }

  // ----- reading the switch -----

  predicate DigitsAt(text: string, i: nat, n: nat) {
    i + n <= |text| && forall j :: i <= j < i + n ==> IsDigit(text[j])
  }

  function Two(text: string, i: nat): int
    requires i + 2 <= |text|
  {
    10 * DigitValue(text[i]) + DigitValue(text[i + 1])
  }

  /** `YYYY-MM-DD` at the start of the text. */
  predicate DateShaped(text: string) {
    |text| >= 10 && DigitsAt(text, 0, 4) && text[4] == '-' && DigitsAt(text, 5, 2) && text[7] == '-'
        && DigitsAt(text, 8, 2)
  }

  /** `THH:MM` next. */
  predicate MinutesShaped(text: string) {
    |text| >= 17 && text[10] == 'T' && DigitsAt(text, 11, 2) && text[13] == ':' && DigitsAt(text, 14, 2)
  }

  /** The fields of `YYYY-MM-DD` or `YYYY-MM-DDTHH:MM[:SS]Z`. */
  function ParseFields(text: string): Option<Fields> {
    if !DateShaped(text) then None
    else
      var date := Fields(100 * Two(text, 0) + Two(text, 2), Two(text, 5), Two(text, 8), 0, 0, 0);
      if |text| == 10 then Some(date)
      else if !MinutesShaped(text) then None
      else
        var minutes := date.(hour := Two(text, 11), minute := Two(text, 14));
        if |text| == 17 && text[16] == 'Z' then Some(minutes)
        else if |text| == 20 && text[16] == ':' && DigitsAt(text, 17, 2) && text[19] == 'Z'
            then Some(minutes.(second := Two(text, 17)))
        else None
  }

  function ParseUntil(text: string): Option<int> {
    var fields := ParseFields(text);
    if fields.None? then None
    else
      var f := fields.value;
      var at := DateUTC(f.year, f.month - 1, f.day, f.hour, f.minute, f.second);
      if ReadUTC(at) == f then Some(at) else None
  }

  /** A date of the calendar and a time of day. */
  predicate Exists(f: Fields) {
    IsDate(Date(f.year, f.month, f.day)) && 0 <= f.hour < 24 && 0 <= f.minute < 60 && 0 <= f.second < 60
  }

  lemma TimeOfDay(day: int, hour: int, minute: int, second: int)
    requires 0 <= hour < 24 && 0 <= minute < 60 && 0 <= second < 60
    ensures var at := day * DAY_MS + hour * 3_600_000 + minute * 60_000 + second * MS_PER_SECOND;
            && at / DAY_MS == day && at % DAY_MS / 3_600_000 == hour
            && at % DAY_MS / 60_000 % 60 == minute && at % DAY_MS / MS_PER_SECOND % 60 == second
  {
    var ms := hour * 3_600_000 + minute * 60_000 + second * MS_PER_SECOND;
    assert 0 <= ms < DAY_MS;
    var at := day * DAY_MS + ms;
    assert at / DAY_MS == day && at % DAY_MS == ms;
    assert ms / 60_000 == hour * 60 + minute;
    assert ms / 1000 == (hour * 60 + minute) * 60 + second;
  }

  lemma ReadsAsATime(at: int)
    ensures Exists(ReadUTC(at))
  {
    DateOfIsADate(at / DAY_MS);
    var ms := at % DAY_MS;
    assert 0 <= ms / 3_600_000 < 24;
  }

  lemma TwoDigitYear(year: int, month: int, day: int)
    requires 0 <= year <= 99 && IsDate(Date(year, month, day))
    ensures DateOf(MakeDay(1900 + year, month - 1, day)).year == 1900 + year
  {
    hide DayFromYear, MakeDay, YearOf, IsLeap;
    MonthInRange(1900 + year, month - 1, day);
    YearLength(1900 + year);
    YearIsUnique(MakeDay(1900 + year, month - 1, day), 1900 + year);
  }

  /** Fields read back exactly when they name a time of the calendar in year 100 or later: years below 100
      are built in the 1900s. */
  lemma ReadsBack(f: Fields)
    requires 0 <= f.year
    ensures ReadUTC(DateUTC(f.year, f.month - 1, f.day, f.hour, f.minute, f.second)) == f
            <==> Exists(f) && f.year >= 100
  {
    var at := DateUTC(f.year, f.month - 1, f.day, f.hour, f.minute, f.second);
    ReadsAsATime(at);
    hide DateOf, MakeDay, IsDate;
    if Exists(f) {
      var y := if f.year <= 99 then 1900 + f.year else f.year;
      TimeOfDay(MakeDay(y, f.month - 1, f.day), f.hour, f.minute, f.second);
      if f.year >= 100 {
        DateOfIsTheInverse(Date(f.year, f.month, f.day));
      } else {
        TwoDigitYear(f.year, f.month, f.day);
      }
    }
  }

  lemma ParsedFields(text: string)
    requires ParseFields(text).Some?
    ensures 0 <= ParseFields(text).value.year <= 9999 && text != "" && IsDigit(text[0])
  {
  }

  /** A whole second is determined by the fields read off it. */
  lemma FieldsDetermineTheSecond(at: int, other: int)
    requires at % MS_PER_SECOND == 0 && other % MS_PER_SECOND == 0
    requires ReadUTC(at) == ReadUTC(other)
    ensures at == other
  {
    hide DateOf, MakeDay, IsDate;
    DateOfIsADate(at / DAY_MS);
    DateOfIsADate(other / DAY_MS);
    SecondOfDay(at);
    SecondOfDay(other);
  }

  lemma SecondOfDay(at: int)
    requires at % MS_PER_SECOND == 0
    ensures var f := ReadUTC(at);
            at == at / DAY_MS * DAY_MS + f.hour * 3_600_000 + f.minute * 60_000 + f.second * MS_PER_SECOND
  {
    hide DateOf;
    var ms := at % DAY_MS;
    var s := ms / 1000;
    assert ms % 1000 == 0;
    assert ms == 1000 * s;
    assert ms / 60_000 == s / 60 && ms / 3_600_000 == s / 3600;
    assert s / 60 / 60 == s / 3600;
  }

  lemma ParsedYear(text: string)
    requires ParseUntil(text).Some?
    ensures 0 <= ReadUTC(ParseUntil(text).value).year <= 9999
  {
    ParsedFields(text);
  }

  /** A text is read exactly when it has one of the three shapes and names a time of the calendar in year 100
      or later; the time returned is the only whole second that reads as those fields. */
  lemma ReadsExactlyTheTimes(text: string)
    ensures ParseUntil(text).Some?
            <==> ParseFields(text).Some? && Exists(ParseFields(text).value) && ParseFields(text).value.year >= 100
    ensures forall at :: ParseUntil(text) == Some(at)
                         <==> (ParseFields(text) == Some(ReadUTC(at)) && at % MS_PER_SECOND == 0
                               && ReadUTC(at).year >= 100)
  {
    hide ReadUTC, DateUTC, ParseFields, Exists;
    if ParseFields(text).Some? {
      var f := ParseFields(text).value;
      ParsedFields(text);
      ReadsBack(f);
      var built := DateUTC(f.year, f.month - 1, f.day, f.hour, f.minute, f.second);
      WholeSecond(f);
      forall at | ReadUTC(at) == f && at % MS_PER_SECOND == 0 && f.year >= 100 ensures at == built {
        ReadsAsATime(at);
        FieldsDetermineTheSecond(at, built);
      }
    }
  }

  lemma WholeSecond(f: Fields)
    ensures DateUTC(f.year, f.month - 1, f.day, f.hour, f.minute, f.second) % MS_PER_SECOND == 0
  {
    hide MakeDay;
    var y := if 0 <= f.year <= 99 then 1900 + f.year else f.year;
    assert DateUTC(f.year, f.month - 1, f.day, f.hour, f.minute, f.second)
           == 1000 * (MakeDay(y, f.month - 1, f.day) * 86_400 + f.hour * 3_600 + f.minute * 60 + f.second);
  }

  // ----- writing a time -----

  function Digit(n: int): char
    requires 0 <= n < 10
  {
    '0' + n as char
  }

  function TwoDigits(n: int): string
    requires 0 <= n < 100
  {
    [Digit(n / 10), Digit(n % 10)]
  }

  function DateText(f: Fields): string
    requires Exists(f) && 0 <= f.year <= 9999
  {
    TwoDigits(f.year / 100) + TwoDigits(f.year % 100) + "-" + TwoDigits(f.month) + "-" + TwoDigits(f.day)
  }

  function MinutesText(f: Fields): string
    requires Exists(f) && 0 <= f.year <= 9999
  {
    DateText(f) + "T" + TwoDigits(f.hour) + ":" + TwoDigits(f.minute)
  }

  /** The time to the millisecond, as the switch reports it. */
  function IsoText(at: int): string
    requires 0 <= ReadUTC(at).year <= 9999
  {
    var f, ms := ReadUTC(at), at % MS_PER_SECOND;
    ReadsAsATime(at);
    MinutesText(f) + ":" + TwoDigits(f.second) + "." + [Digit(ms / 100)] + TwoDigits(ms % 100) + "Z"
  }

  lemma TwoReadsTwoDigits(text: string, i: nat, n: int)
    requires 0 <= n < 100 && i + 2 <= |text| && text[i..i + 2] == TwoDigits(n)
    ensures DigitsAt(text, i, 2) && Two(text, i) == n
  {
    assert text[i] == text[i..i + 2][0] && text[i + 1] == text[i..i + 2][1];
  }

  lemma DateTextReads(f: Fields, text: string)
    requires Exists(f) && 0 <= f.year <= 9999 && DateText(f) <= text
    ensures DateShaped(text) && 100 * Two(text, 0) + Two(text, 2) == f.year && Two(text, 5) == f.month
            && Two(text, 8) == f.day
  {
    var d := DateText(f);
    assert |d| == 10 && text[..10] == d;
    assert text[0..2] == d[0..2] == TwoDigits(f.year / 100);
    assert text[2..4] == d[2..4] == TwoDigits(f.year % 100);
    assert text[5..7] == d[5..7] == TwoDigits(f.month);
    assert text[8..10] == d[8..10] == TwoDigits(f.day);
    TwoReadsTwoDigits(text, 0, f.year / 100);
    TwoReadsTwoDigits(text, 2, f.year % 100);
    TwoReadsTwoDigits(text, 5, f.month);
    TwoReadsTwoDigits(text, 8, f.day);
    assert text[4] == d[4] && text[7] == d[7];
  }

  lemma MinutesTextReads(f: Fields, text: string)
    requires Exists(f) && 0 <= f.year <= 9999 && MinutesText(f) <= text && |text| >= 17
    ensures MinutesShaped(text) && Two(text, 11) == f.hour && Two(text, 14) == f.minute
  {
    var m := MinutesText(f);
    assert |m| == 16 && text[..16] == m;
    assert text[11..13] == m[11..13] == TwoDigits(f.hour);
    assert text[14..16] == m[14..16] == TwoDigits(f.minute);
    TwoReadsTwoDigits(text, 11, f.hour);
    TwoReadsTwoDigits(text, 14, f.minute);
    assert text[10] == m[10] && text[13] == m[13];
  }

  /** Every whole second of years 100 to 9999 has a text that reads as it, shorter where its last fields are 0. */
  lemma EverySecondCanBeWritten(at: int)
    requires 100 <= ReadUTC(at).year <= 9999 && at % MS_PER_SECOND == 0
    ensures var f := ReadUTC(at);
            && Exists(f)
            && ParseUntil(MinutesText(f) + ":" + TwoDigits(f.second) + "Z") == Some(at)
            && (f.second == 0 ==> ParseUntil(MinutesText(f) + "Z") == Some(at))
            && (f.hour == 0 && f.minute == 0 && f.second == 0 ==> ParseUntil(DateText(f)) == Some(at))
  {
    hide ReadUTC, ParseFields, ParseUntil, MinutesText, DateText, TwoDigits;
    ReadsAsATime(at);
    var f := ReadUTC(at);
    SecondsTextReads(f);
    ReadsExactlyTheTimes(MinutesText(f) + ":" + TwoDigits(f.second) + "Z");
    MinutesTextIsRead(f);
    ReadsExactlyTheTimes(MinutesText(f) + "Z");
    DateTextIsRead(f);
    ReadsExactlyTheTimes(DateText(f));
  }

  lemma MinutesTextIsRead(f: Fields)
    requires Exists(f) && 0 <= f.year <= 9999
    ensures ParseFields(MinutesText(f) + "Z") == Some(f.(second := 0))
  {
    DateTextReads(f, MinutesText(f) + "Z");
    MinutesTextReads(f, MinutesText(f) + "Z");
  }

  lemma DateTextIsRead(f: Fields)
    requires Exists(f) && 0 <= f.year <= 9999
    ensures ParseFields(DateText(f)) == Some(Fields(f.year, f.month, f.day, 0, 0, 0))
  {
    DateTextReads(f, DateText(f));
  }

  lemma SecondsTextReads(f: Fields)
    requires Exists(f) && 0 <= f.year <= 9999
    ensures ParseFields(MinutesText(f) + ":" + TwoDigits(f.second) + "Z") == Some(f)
  {
    var text := MinutesText(f) + ":" + TwoDigits(f.second) + "Z";
    DateTextReads(f, text);
    MinutesTextReads(f, text);
    assert text[17..19] == TwoDigits(f.second);
    TwoReadsTwoDigits(text, 17, f.second);
  }

  // ----- the switch -----

  const WHITE_SPACE: set<char> := {
    '\U{9}', '\U{A}', '\U{B}', '\U{C}', '\U{D}', '\U{20}', '\U{A0}', '\U{1680}', '\U{2000}', '\U{2001}', '\U{2002}',
    '\U{2003}', '\U{2004}', '\U{2005}', '\U{2006}', '\U{2007}', '\U{2008}', '\U{2009}', '\U{200A}', '\U{2028}',
    '\U{2029}', '\U{202F}', '\U{205F}', '\U{3000}', '\U{FEFF}'
  }

  function Trim(text: string): string {
    if text != [] && text[0] in WHITE_SPACE then Trim(text[1..])
    else if text != [] && text[|text| - 1] in WHITE_SPACE then Trim(text[..|text| - 1])
    else text
  }

  datatype ApiPause = ApiPause(until: Option<string>, reason: Option<string>, unreadable: bool, retryAfterSeconds: int)

  const PAUSE_REASONS: set<string> := {"render_quota", "render_suspended", "maintenance"}

  /** The switch's state at `now`, from its two texts, or nothing when it is off. */
  function PauseAt(until: string, reason: string, now: int): Option<ApiPause> {
    var text, why := Trim(until), if Trim(reason) in PAUSE_REASONS then Some(Trim(reason)) else None;
    if text == "" then None
    else if Lower(text) == "unknown" then Some(ApiPause(None, why, false, RETRY_AFTER_API_PAUSED_UNKNOWN_S))
    else
      var at := ParseUntil(text);
      if at.None? then Some(ApiPause(None, why, true, RETRY_AFTER_API_PAUSED_UNKNOWN_S))
      else if at.value <= now then None
      else
        ParsedYear(text);
        Some(ApiPause(Some(IsoText(at.value)), why, false, SecondsUntil(at.value, now)))
  }

  lemma IsoTextReads(at: int)
    requires 100 <= ReadUTC(at).year <= 9999 && at % MS_PER_SECOND == 0
    ensures |IsoText(at)| == 24 && ParseUntil(IsoText(at)[..19] + "Z") == Some(at)
  {
    EverySecondCanBeWritten(at);
    var f := ReadUTC(at);
    hide ReadUTC, ParseUntil, Exists;
    assert IsoText(at)[..19] == MinutesText(f) + ":" + TwoDigits(f.second);
  }

  lemma NotUnknown(text: string)
    requires text != "" && IsDigit(text[0])
    ensures Lower(text) != "unknown"
  {
    assert Lower(text)[0] != 'u';
  }

  lemma ShortestWait(at: int, now: int)
    ensures now + 1000 * SecondsUntil(at, now) >= at
    ensures now < at ==> now + 1000 * (SecondsUntil(at, now) - 1) < at
  {
    SecondsReach(at, now);
  }

  /** A switch set to a date pauses until that date and no longer; it reports the date, and the wait it asks
      for is the shortest in whole seconds that reaches it. */
  lemma PausesUntilItsDate(until: string, reason: string, at: int, now: int)
    requires ParseUntil(Trim(until)) == Some(at)
    ensures PauseAt(until, reason, now).Some? <==> now < at
    ensures now < at ==>
              var p := PauseAt(until, reason, now).value;
              && p.until.Some? && |p.until.value| == 24 && ParseUntil(p.until.value[..19] + "Z") == Some(at)
              && !p.unreadable
              && now + 1000 * p.retryAfterSeconds >= at && now + 1000 * (p.retryAfterSeconds - 1) < at
  {
    hide ReadUTC, ParseFields, IsoText, SecondsUntil, Trim, Exists, Lower;
    ReadsExactlyTheTimes(Trim(until));
    ParsedFields(Trim(until));
    hide ParseUntil;
    IsoTextReads(at);
    NotUnknown(Trim(until));
    ShortestWait(at, now);
  }

  /** Text that is not a time pauses without a date, however the clock stands. */
  lemma UnreadableTextPauses(until: string, reason: string, now: int)
    requires Trim(until) != "" && Lower(Trim(until)) != "unknown"
    requires ParseFields(Trim(until)).None? || !Exists(ParseFields(Trim(until)).value)
             || ParseFields(Trim(until)).value.year < 100
    ensures PauseAt(until, reason, now).Some? && PauseAt(until, reason, now).value.unreadable
            && PauseAt(until, reason, now).value.until == None
  {
    ReadsExactlyTheTimes(Trim(until));
  }

  /** Trimming takes white space off both ends, and all of it. */
  lemma {:induction false} TrimIs(text: string)
    ensures exists i: nat, j: nat :: IsTrimmed(text, i, j)
  {
    var i, j := TrimEnds(text);
  }

  /** From `i` to `j` is the text without the white space around it. */
  ghost predicate IsTrimmed(text: string, i: nat, j: nat) {
    && i <= j <= |text| && Trim(text) == text[i..j]
    && (forall k :: 0 <= k < i || j <= k < |text| ==> text[k] in WHITE_SPACE)
    && (i < j ==> text[i] !in WHITE_SPACE && text[j - 1] !in WHITE_SPACE)
  }

  lemma {:induction false} TrimEnds(text: string) returns (i: nat, j: nat)
    ensures IsTrimmed(text, i, j)
  {
    hide *;
    if text != [] && WhiteAt(text, 0) {
      i, j := TrimEnds(text[1..]);
      i, j := i + 1, j + 1;
      TrimmedFirst(text, i, j);
    } else if text != [] && WhiteAt(text, |text| - 1) {
      i, j := TrimEnds(text[..|text| - 1]);
      TrimmedLast(text, i, j);
    } else {
      i, j := 0, |text|;
      Untrimmed(text);
    }
  }

  predicate WhiteAt(text: string, k: nat) { k < |text| && text[k] in WHITE_SPACE }

  lemma TrimmedFirst(text: string, i: nat, j: nat)
    requires i > 0 && j > 0 && WhiteAt(text, 0) && IsTrimmed(text[1..], i - 1, j - 1)
    ensures IsTrimmed(text, i, j)
  {
    hide WHITE_SPACE;
    assert text[1..][i - 1..j - 1] == text[i..j];
    forall k | 0 <= k < i || j <= k < |text| ensures text[k] in WHITE_SPACE {
      if k > 0 { assert text[k] == text[1..][k - 1]; }
    }
  }

  lemma TrimmedLast(text: string, i: nat, j: nat)
    requires text != [] && !WhiteAt(text, 0) && WhiteAt(text, |text| - 1) && IsTrimmed(text[..|text| - 1], i, j)
    ensures IsTrimmed(text, i, j)
  {
    assert text[..|text| - 1][i..j] == text[i..j];
    forall k | 0 <= k < i || j <= k < |text| ensures text[k] in WHITE_SPACE {
      if k < |text| - 1 { assert text[k] == text[..|text| - 1][k]; }
    }
  }

  lemma Untrimmed(text: string)
    requires text != [] ==> !WhiteAt(text, 0) && !WhiteAt(text, |text| - 1)
    ensures IsTrimmed(text, 0, |text|)
  {
  }

  /** `unknown`, each letter in either case. */
  predicate SpellsUnknown(text: string) {
    && |text| == 7
    && forall i :: 0 <= i < 7 ==>
         text[i] == "unknown"[i] || text[i] == "UNKNOWN"[i] || (i == 2 && text[i] == '\U{212A}')
  }

  lemma UnknownInAnyCase(text: string)
    ensures Lower(text) == "unknown" <==> SpellsUnknown(text)
  {
    if Lower(text) == "unknown" {
      assert |text| == 7;
      forall i | 0 <= i < 7 ensures text[i] == "unknown"[i] || text[i] == "UNKNOWN"[i]
             || (i == 2 && text[i] == '\U{212A}') {
        assert Lower(text)[i] == LowerChar(text[i]);
      }
    }
    if SpellsUnknown(text) {
      forall i | 0 <= i < 7 ensures Lower(text)[i] == "unknown"[i] {
        assert Lower(text)[i] == LowerChar(text[i]);
      }
      assert Lower(text) == "unknown";
    }
  }

  /** The switch is off exactly when it is blank or its time has come. It has no date, and asks for an hour,
      exactly when its text is no time, and is unreadable exactly when that is not `unknown` either. A reason is
      reported exactly when it is one of the three. */
  lemma SwitchIs(until: string, reason: string, now: int)
    ensures var text, at, p := Trim(until), ParseUntil(Trim(until)), PauseAt(until, reason, now);
            && (p.None? <==> text == "" || (at.Some? && at.value <= now))
            && (p.Some? ==>
                  && (p.value.until.None? <==> at.None?)
                  && (at.None? ==> p.value.retryAfterSeconds == 3600)
                  && (p.value.unreadable <==> at.None? && !SpellsUnknown(text))
                  && (forall r :: p.value.reason == Some(r)
                                  <==> (r == Trim(reason) && r in {"render_quota", "render_suspended", "maintenance"})))
  {
    var text := Trim(until);
    UnknownInAnyCase(text);
    if ParseUntil(text).Some? {
      ParsedFields(text);
      NotUnknown(text);
    }
    hide ParseUntil, ParseFields, Trim, Lower, SpellsUnknown, SecondsUntil, IsoText, ReadUTC;
  }
}
