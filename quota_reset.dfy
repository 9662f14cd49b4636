/**
 * The quota clock of the backend (src/lib/quota-reset.ts): pure predicates that
 * decide whether a usage window has rolled over since the stored last-reset time.
 *
 * Times are `Date.getTime()` values: integer milliseconds since 1970-01-01T00:00:00Z.
 * Parsing the stored ISO-8601 text is the JavaScript runtime's job; it is a
 * parameter `parse` that yields `None` where `new Date(text)` is an Invalid Date.
 */
module QuotaReset {
  import opened Wrappers
  import opened Text

  const MsPerDay: int := 24 * 60 * 60 * 1000

  /** The rolling weekly window, `7 * 24 * 60 * 60 * 1000` ms. */
  const WeekMs: int := 7 * MsPerDay

  /** `getUTCFullYear()` and `getUTCMonth()`; `month` counts from 0 (January) to 11. */
  datatype YearMonth = YearMonth(year: int, month: int)

  /**
   * The proleptic Gregorian (year, month) of day number `z` (day 0 is 1970-01-01),
   * by the standard era/day-of-era decomposition; months are shifted to start in
   * March so that the leap day falls at the end of the shifted year.
   */
  function CivilFromDays(z: int): (ym: YearMonth)
    ensures 0 <= ym.month < 12
  {
    var shifted := z + 719468;
    var era := shifted / 146097;
    var doe := shifted % 146097;
    var yoe := (doe - doe / 1460 + doe / 36524 - doe / 146096) / 365;
    var doy := doe - (365 * yoe + yoe / 4 - yoe / 100);
    var mp := (5 * doy + 2) / 153;
    var m := if mp < 10 then mp + 3 else mp - 9;
    YearMonth(yoe + era * 400 + (if m <= 2 then 1 else 0), m - 1)
  }

  /** The UTC calendar year and month of time `t` (`/` rounds down, as days do). */
  function UtcYearMonth(t: int): (ym: YearMonth)
    ensures 0 <= ym.month < 12
  {
    CivilFromDays(t / MsPerDay)
  }

  /** `!lastReset` in JavaScript: `null`, `undefined` or the empty string. */
  predicate IsBlank(lastReset: Option<string>) {
    lastReset.None? || lastReset.value == ""
  }

  /** The last-reset time, when one is stored and it parses. */
  function LastResetTime(lastReset: Option<string>, parse: string -> Option<int>): (r: Option<int>)
    ensures r.Some? <==> !IsBlank(lastReset) && parse(lastReset.value).Some?
    ensures r.Some? ==> r == parse(lastReset.value)
  {
    if IsBlank(lastReset) then None else parse(lastReset.value)
  }

  /** `isWeeklyResetDue(lastReset, now)`. */
  function IsWeeklyResetDue(lastReset: Option<string>, now: int, parse: string -> Option<int>): (due: bool)
    ensures LastResetTime(lastReset, parse).None? ==> due
    ensures LastResetTime(lastReset, parse).Some? ==>
              (due <==> now - LastResetTime(lastReset, parse).value >= WeekMs)
  {
    if IsBlank(lastReset) then true
    else
      match parse(lastReset.value)
      case None => true
      case Some(last) => now - last >= WeekMs
  }

  /** `isMonthlyResetDue(lastReset, now)`: calendar-aligned, not duration-based. */
  function IsMonthlyResetDue(lastReset: Option<string>, now: int, parse: string -> Option<int>): (due: bool)
    ensures LastResetTime(lastReset, parse).None? ==> due
    ensures LastResetTime(lastReset, parse).Some? ==>
              (due <==> UtcYearMonth(LastResetTime(lastReset, parse).value) != UtcYearMonth(now))
  {
    if IsBlank(lastReset) then true
    else
      match parse(lastReset.value)
      case None => true
      case Some(last) =>
        UtcYearMonth(last).year != UtcYearMonth(now).year || UtcYearMonth(last).month != UtcYearMonth(now).month
  }

  // ---------------------------------------------------------------------------
  // getMonthKey: the first seven characters of `toISOString()`

  function Pow10(w: nat): (p: nat)
    ensures p >= 1
  {
    if w == 0 then 1 else 10 * Pow10(w - 1)
  }

  /** The last `w` decimal digits of `n`, zero-padded to exactly `w` characters. */
  function Padded(n: nat, w: nat): (s: string)
    ensures |s| == w
  {
    if w == 0 then [] else Padded(n / 10, w - 1) + [DigitChar(n % 10)]
  }

  /**
   * `getMonthKey(date)`: `toISOString()` writes years 0..9999 as four digits
   * ("YYYY-MM-..."), and any other year as a sign and six digits ("+YYYYYY-..."),
   * so the seven-character prefix is "YYYY-MM" only for four-digit years.
   */
  function MonthKey(t: int): (key: string)
    ensures |key| == 7
  {
    var ym := UtcYearMonth(t);
    if 0 <= ym.year <= 9999 then Padded(ym.year, 4) + "-" + Padded(ym.month + 1, 2)
    else (if ym.year < 0 then "-" else "+") + Padded(if ym.year < 0 then -ym.year else ym.year, 6)
  }

  // ---------------------------------------------------------------------------
  // Properties

  /** Zero-padding is injective on numbers that fit in the width. */
  lemma {:induction false} PaddedInjective(a: nat, b: nat, w: nat)
    requires a < Pow10(w) && b < Pow10(w)
    requires Padded(a, w) == Padded(b, w)
    ensures a == b
  {
    if w > 0 {
      var pa, pb := Padded(a / 10, w - 1), Padded(b / 10, w - 1);
      assert Padded(a, w) == pa + [DigitChar(a % 10)];
      assert Padded(b, w) == pb + [DigitChar(b % 10)];
      assert pa == Padded(a, w)[..w - 1] && pb == Padded(b, w)[..w - 1];
      assert DigitChar(a % 10) == DigitChar(b % 10);
      PaddedInjective(a / 10, b / 10, w - 1);
    }
  }

  /** For four-digit years the month key is exactly the (year, month) pair. */
  lemma MonthKeyIsYearMonth(t1: int, t2: int)
    requires 0 <= UtcYearMonth(t1).year <= 9999 && 0 <= UtcYearMonth(t2).year <= 9999
    ensures MonthKey(t1) == MonthKey(t2) <==> UtcYearMonth(t1) == UtcYearMonth(t2)
  {
    var ym1, ym2 := UtcYearMonth(t1), UtcYearMonth(t2);
    if MonthKey(t1) == MonthKey(t2) {
      var k1, k2 := MonthKey(t1), MonthKey(t2);
      assert k1[..4] == Padded(ym1.year, 4) && k2[..4] == Padded(ym2.year, 4);
      assert k1[5..] == Padded(ym1.month + 1, 2) && k2[5..] == Padded(ym2.month + 1, 2);
      assert Pow10(4) == 10000 && Pow10(2) == 100;
      PaddedInjective(ym1.year, ym2.year, 4);
      PaddedInjective(ym1.month + 1, ym2.month + 1, 2);
    }
  }

  /**
   * For four-digit years, comparing month keys decides the monthly reset exactly
   * as `isMonthlyResetDue` does.
   */
  lemma MonthlyDueIffMonthKeyDiffers(lastReset: string, now: int, parse: string -> Option<int>)
    requires lastReset != "" && parse(lastReset).Some?
    requires 0 <= UtcYearMonth(parse(lastReset).value).year <= 9999
    requires 0 <= UtcYearMonth(now).year <= 9999
    ensures IsMonthlyResetDue(Some(lastReset), now, parse) <==> MonthKey(parse(lastReset).value) != MonthKey(now)
  {
    MonthKeyIsYearMonth(parse(lastReset).value, now);
  }

  /** Beyond year 9999 the seven-character key no longer holds the month. */
  lemma MonthKeyDropsMonthAfterYear9999()
    ensures UtcYearMonth(253403510400000) == YearMonth(10000, 0)
    ensures UtcYearMonth(253406188800000) == YearMonth(10000, 1)
    ensures MonthKey(253403510400000) == MonthKey(253406188800000)
  {
    assert 253403510400000 / MsPerDay == 2932911;
    assert 253406188800000 / MsPerDay == 2932942;
    assert CivilFromDays(2932911) == YearMonth(10000, 0);
    assert CivilFromDays(2932942) == YearMonth(10000, 1);
  }

  /** A missing, empty or unparsable last-reset time fails open: both resets are due. */
  lemma FailOpen(lastReset: Option<string>, now: int, parse: string -> Option<int>)
    requires lastReset.None? || lastReset.value == "" || parse(lastReset.value).None?
    ensures IsWeeklyResetDue(lastReset, now, parse) && IsMonthlyResetDue(lastReset, now, parse)
  {
  }

  /** The weekly window: due at exactly seven days, never while `now` is before the last reset. */
  lemma WeeklyBoundary(lastReset: string, now: int, parse: string -> Option<int>)
    requires lastReset != "" && parse(lastReset).Some?
    ensures now == parse(lastReset).value + 604_800_000 ==> IsWeeklyResetDue(Some(lastReset), now, parse)
    ensures now == parse(lastReset).value + 604_799_999 ==> !IsWeeklyResetDue(Some(lastReset), now, parse)
    ensures now < parse(lastReset).value ==> !IsWeeklyResetDue(Some(lastReset), now, parse)
  {
  }

  /** Once the weekly reset is due it stays due as time moves on. */
  lemma WeeklyDueIsMonotone(lastReset: Option<string>, now: int, later: int, parse: string -> Option<int>)
    requires now <= later && IsWeeklyResetDue(lastReset, now, parse)
    ensures IsWeeklyResetDue(lastReset, later, parse)
  {
  }

  /** Within one UTC calendar month the monthly reset is never due, however much time passed. */
  lemma MonthlyNotDueWithinMonth(lastReset: string, now: int, parse: string -> Option<int>)
    requires lastReset != "" && parse(lastReset).Some?
    requires UtcYearMonth(parse(lastReset).value) == UtcYearMonth(now)
    ensures !IsMonthlyResetDue(Some(lastReset), now, parse)
  {
  }

  /**
   * Last reset 2024-01-31T23:59:00Z, now 2024-02-01T00:00:05Z: the monthly
   * reset is due after 65 seconds, the weekly one is not.
   */
  lemma MonthBoundaryScenario(lastReset: string, parse: string -> Option<int>)
    requires lastReset == "2024-01-31T23:59:00Z" && parse(lastReset) == Some(1706745540000)
    ensures IsMonthlyResetDue(Some(lastReset), 1706745605000, parse)
    ensures !IsWeeklyResetDue(Some(lastReset), 1706745605000, parse)
    ensures MonthKey(1706745540000) == "2024-01" && MonthKey(1706745605000) == "2024-02"
  {
    assert 1706745540000 / MsPerDay == 19753;
    assert 1706745605000 / MsPerDay == 19754;
    assert CivilFromDays(19753) == YearMonth(2024, 0);
    assert CivilFromDays(19754) == YearMonth(2024, 1);
  }
}
