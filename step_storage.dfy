/**
 * The day-partitioned step counter (app/lib/StepStorage.ts).
 *
 * The durable key-value store is a map from keys to text. A day's count lives
 * under "step_tracker_" followed by the date part of the current instant's ISO
 * text, which is its UTC calendar date. A day nobody has written reads as 0,
 * so the count starts over when the date changes.
 */
module StepStorage {
  import opened Wrappers
  import opened Decimal

  const KeyPrefix: string := "step_tracker_"

  /** The years a JavaScript Date can hold. */
  const MinYear: int := -271821
  const MaxYear: int := 275760

  /** A UTC calendar date. */
  datatype Date = Date(year: int, month: int, day: int)

  predicate ValidDate(d: Date) {
    MinYear <= d.year <= MaxYear && 1 <= d.month <= 12 && 1 <= d.day <= 31
  }

  /** n written in exactly `width` digits, with leading zeros. */
  function PadDigits(n: nat, width: nat): (s: string)
    ensures |s| == width && AllDigits(s)
  {
    if width == 0 then [] else PadDigits(n / 10, width - 1) + [DigitChar(n % 10)]
  }

  /** The year as toISOString writes it: four digits in 0..9999, otherwise a sign and six digits. */
  function IsoYear(y: int): (s: string)
    requires MinYear <= y <= MaxYear
    ensures |s| == 4 <==> 0 <= y <= 9999
    ensures |s| == 4 || (|s| == 7 && (s[0] == '-' <==> y < 0) && (s[0] == '+' <==> y > 9999))
  {
    if 0 <= y <= 9999 then PadDigits(y, 4)
    else if y < 0 then "-" + PadDigits(-y, 6)
    else "+" + PadDigits(y, 6)
  }

  /** The part of `toISOString()` before the 'T': YYYY-MM-DD. */
  function IsoDate(d: Date): (s: string)
    requires ValidDate(d)
    ensures |s| == 10 <==> 0 <= d.year <= 9999
    ensures |s| == 10 || |s| == 13
    ensures s[|s| - 6] == '-' && s[|s| - 3] == '-'
    ensures AllDigits(s[|s| - 5..|s| - 3]) && AllDigits(s[|s| - 2..])
  {
    IsoYear(d.year) + "-" + PadDigits(d.month, 2) + "-" + PadDigits(d.day, 2)
  }

  /** getTodayKey, for the date the clock gives. */
  function DayKey(d: Date): (k: string)
    requires ValidDate(d)
    ensures KeyPrefix <= k
    ensures |k| == |KeyPrefix| + 10 || |k| == |KeyPrefix| + 13
  {
    KeyPrefix + IsoDate(d)
  }

  /** Reads the date back out of a date part: the inverse of IsoDate. */
  function ParseIsoDate(s: string): Option<Date> {
    if |s| == 10 && AllDigits(s[..4]) && s[4] == '-' && AllDigits(s[5..7])
       && s[7] == '-' && AllDigits(s[8..])
    then
      Some(Date(DigitsValue(s[..4]), DigitsValue(s[5..7]), DigitsValue(s[8..])))
    else if |s| == 13 && (s[0] == '+' || s[0] == '-') && AllDigits(s[1..7])
       && s[7] == '-' && AllDigits(s[8..10]) && s[10] == '-' && AllDigits(s[11..])
    then
      var y: int := DigitsValue(s[1..7]);
      Some(Date(if s[0] == '-' then -y else y, DigitsValue(s[8..10]), DigitsValue(s[11..])))
    else
      None
  }

  /** The date a step-counter key stands for; None for every other key. */
  function ParseDayKey(k: string): Option<Date> {
    if |KeyPrefix| <= |k| && k[..|KeyPrefix|] == KeyPrefix
    then ParseIsoDate(k[|KeyPrefix|..])
    else None
  }

  lemma {:induction false} PadDigitsValue(n: nat, width: nat)
    requires n < Pow10(width)
    ensures DigitsValue(PadDigits(n, width)) == n
  {
    if width > 0 {
      var s := PadDigits(n, width);
      assert s[..width - 1] == PadDigits(n / 10, width - 1);
      PadDigitsValue(n / 10, width - 1);
    }
  }

  lemma SmallPowers()
    ensures Pow10(2) == 100 && Pow10(4) == 10000 && Pow10(6) == 1000000
  {
    assert Pow10(1) == 10;
    assert Pow10(3) == 1000;
    assert Pow10(5) == 100000;
  }

  lemma IsoDateRoundTrip(d: Date)
    requires ValidDate(d)
    ensures ParseIsoDate(IsoDate(d)) == Some(d)
  {
    SmallPowers();
    PadDigitsValue(d.month, 2);
    PadDigitsValue(d.day, 2);
    if 0 <= d.year <= 9999 {
      PadDigitsValue(d.year, 4);
      FourDigitYearParts(PadDigits(d.year, 4), PadDigits(d.month, 2), PadDigits(d.day, 2));
    } else {
      SignedYearRoundTrip(d);
    }
  }

  lemma SignedYearRoundTrip(d: Date)
    requires ValidDate(d) && !(0 <= d.year <= 9999)
    ensures ParseIsoDate(IsoDate(d)) == Some(d)
  {
    SmallPowers();
    PadDigitsValue(d.month, 2);
    PadDigitsValue(d.day, 2);
    var a: nat := if d.year < 0 then -d.year else d.year;
    var sign := if d.year < 0 then '-' else '+';
    var y := PadDigits(a, 6);
    PadDigitsValue(a, 6);
    assert IsoYear(d.year) == [sign] + y;
    SignedYearParts(sign, y, PadDigits(d.month, 2), PadDigits(d.day, 2));
  }

  lemma FourDigitYearParts(y: string, m: string, dd: string)
    requires |y| == 4 && |m| == 2 && |dd| == 2
    ensures var s := y + "-" + m + "-" + dd;
      |s| == 10 && s[..4] == y && s[4] == '-' && s[5..7] == m && s[7] == '-' && s[8..] == dd
  {
  }

  lemma SignedYearParts(sign: char, y: string, m: string, dd: string)
    requires |y| == 6 && |m| == 2 && |dd| == 2
    ensures var s := [sign] + y + "-" + m + "-" + dd;
      |s| == 13 && s[0] == sign && s[1..7] == y && s[7] == '-' && s[8..10] == m
      && s[10] == '-' && s[11..] == dd
  {
  }

  /** A key made from a date names that date again. */
  lemma DayKeyRoundTrip(d: Date)
    requires ValidDate(d)
    ensures ParseDayKey(DayKey(d)) == Some(d)
  {
    var k := DayKey(d);
    assert k[..|KeyPrefix|] == KeyPrefix;
    assert k[|KeyPrefix|..] == IsoDate(d);
    IsoDateRoundTrip(d);
  }

  /** Two dates share a key exactly when they are the same date. */
  lemma DayKeyInjective(d1: Date, d2: Date)
    requires ValidDate(d1) && ValidDate(d2)
    ensures DayKey(d1) == DayKey(d2) <==> d1 == d2
  {
    DayKeyRoundTrip(d1);
    DayKeyRoundTrip(d2);
  }

  /**
   * Every entry under a day key holds text that parseInt reads as a number,
   * which is what the counter's only writers store there.
   */
  predicate WellFormed(items: map<string, string>) {
    forall k :: k in items && ParseDayKey(k).Some? ==> ParseInt(items[k]).Some?
  }

  /** The count stored for day d: the parsed entry under its key, 0 when there is none. */
  function StoredCount(items: map<string, string>, d: Date): (n: int)
    requires WellFormed(items) && ValidDate(d)
    ensures DayKey(d) !in items ==> n == 0
    ensures DayKey(d) in items ==> ParseInt(items[DayKey(d)]) == Some(n)
  {
    DayKeyRoundTrip(d);
    if DayKey(d) in items then ParseInt(items[DayKey(d)]).value else 0
  }

  /** The store after n's text is written under day d's key. */
  function WriteCount(items: map<string, string>, d: Date, n: int): (r: map<string, string>)
    requires WellFormed(items) && ValidDate(d)
    ensures WellFormed(r)
    ensures StoredCount(r, d) == n
    ensures r - {DayKey(d)} == items - {DayKey(d)}
  {
    IntToStringRoundTrip(n, []);
    assert IntToString(n) + [] == IntToString(n);
    items[DayKey(d) := IntToString(n)]
  }

  /** Writing one day's count leaves every other day's count as it was. */
  lemma OtherDaysUnchanged(items: map<string, string>, d: Date, n: int, other: Date)
    requires WellFormed(items) && ValidDate(d) && ValidDate(other) && other != d
    ensures StoredCount(WriteCount(items, d, n), other) == StoredCount(items, other)
  {
    DayKeyInjective(d, other);
  }

  /** What getTodaySteps returns: 0 when the read fails, the stored count otherwise. */
  function ReadTodaySteps(items: map<string, string>, today: Date, readFails: bool): (n: int)
    requires WellFormed(items) && ValidDate(today)
    ensures readFails || DayKey(today) !in items ==> n == 0
    ensures !readFails && DayKey(today) in items ==> ParseInt(items[DayKey(today)]) == Some(n)
  {
    if readFails then 0 else StoredCount(items, today)
  }

  /** The store and the result after one addSteps call. */
  datatype Outcome = Outcome(items: map<string, string>, value: int)

  function AddStepsOutcome(items: map<string, string>, today: Date, count: int,
                           readFails: bool, writeFails: bool): (o: Outcome)
    requires WellFormed(items) && ValidDate(today)
    ensures WellFormed(o.items)
    ensures o.items - {DayKey(today)} == items - {DayKey(today)}
    ensures writeFails ==> o == Outcome(items, 0)
    ensures !writeFails ==> o.value == ReadTodaySteps(items, today, readFails) + count
    ensures !writeFails ==> StoredCount(o.items, today) == o.value
  {
    var total := ReadTodaySteps(items, today, readFails) + count;
    if writeFails then Outcome(items, 0) else Outcome(WriteCount(items, today, total), total)
  }

  /** The store after one setTodaySteps call. */
  function SetTodayStepsOutcome(items: map<string, string>, today: Date, count: int,
                                writeFails: bool): (r: map<string, string>)
    requires WellFormed(items) && ValidDate(today)
    ensures WellFormed(r)
    ensures r - {DayKey(today)} == items - {DayKey(today)}
    ensures writeFails ==> r == items
    ensures !writeFails ==> StoredCount(r, today) == count
  {
    if writeFails then items else WriteCount(items, today, count)
  }

  /**
   * The durable key-value store (AsyncStorage) as the step counter uses it.
   * The clock and the store's failures are parameters of each operation.
   */
  class StepStore {
    var items: map<string, string>

    ghost predicate Valid()
      reads this
    {
      WellFormed(items)
    }

    constructor (initial: map<string, string>)
      requires WellFormed(initial)
      ensures Valid() && items == initial
    {
      items := initial;
    }

    method GetTodaySteps(today: Date, readFails: bool) returns (steps: int)
      requires Valid() && ValidDate(today)
      ensures steps == ReadTodaySteps(items, today, readFails)
      ensures !readFails && DayKey(today) !in items ==> steps == 0
    {
      if readFails {
        return 0;
      }
      var key := DayKey(today);
      DayKeyRoundTrip(today);
      if key in items && items[key] != "" {
        steps := ParseInt(items[key]).value;
      } else {
        steps := 0;
      }
    }

    method AddSteps(today: Date, count: int, readFails: bool, writeFails: bool) returns (total: int)
      requires Valid() && ValidDate(today)
      modifies this
      ensures Valid()
      ensures Outcome(items, total) == AddStepsOutcome(old(items), today, count, readFails, writeFails)
    {
      var key := DayKey(today);
      var current := GetTodaySteps(today, readFails);
      var newTotal := current + count;
      if writeFails {
        return 0;
      }
      items := items[key := IntToString(newTotal)];
      total := newTotal;
    }

    method SetTodaySteps(today: Date, count: int, writeFails: bool)
      requires Valid() && ValidDate(today)
      modifies this
      ensures Valid()
      ensures items == SetTodayStepsOutcome(old(items), today, count, writeFails)
    {
      var key := DayKey(today);
      if !writeFails {
        items := items[key := IntToString(count)];
      }
    }
  }
}
