/** The date values the filters hold and the text `toISOString().split('T')[0]`
    makes of them. A date is kept as its UTC calendar fields; the host clock and
    time zone are outside the model. */
module IsoDates {
  import opened Wrappers

  /** Years a JavaScript `Date` can hold (about 8.64e15 ms either side of 1970). */
  const MinYear: int := -271821
  const MaxYear: int := 275760

  function Pow10(n: nat): (r: nat)
    ensures r >= 1
  {
    if n == 0 then 1 else 10 * Pow10(n - 1)
  }

  predicate IsDigit(c: char) {
    '0' <= c <= '9'
  }

  predicate AllDigits(s: string) {
    forall i :: 0 <= i < |s| ==> IsDigit(s[i])
  }

  function DigitChar(d: nat): (c: char)
    requires d < 10
    ensures IsDigit(c)
  {
    ('0' as int + d) as char
  }

  function DigitValue(c: char): (d: nat)
    requires IsDigit(c)
    ensures d < 10
  {
    c as int - '0' as int
  }

  /** The last `w` decimal digits of `n`, padded with zeros on the left. */
  function Digits(n: nat, w: nat): (s: string)
    ensures |s| == w && AllDigits(s)
  {
    if w == 0 then [] else Digits(n / 10, w - 1) + [DigitChar(n % 10)]
  }

  /** The number a string of decimal digits spells. */
  function DigitsValue(s: string): nat
    requires AllDigits(s)
  {
    if s == [] then 0 else 10 * DigitsValue(s[..|s| - 1]) + DigitValue(s[|s| - 1])
  }

  /** Reading back the digits of a number that fits the width gives the number. */
  lemma {:induction false} DigitsRoundTrip(n: nat, w: nat)
    requires n < Pow10(w)
    ensures DigitsValue(Digits(n, w)) == n
  {
    if w > 0 {
      assert n / 10 < Pow10(w - 1);
      DigitsRoundTrip(n / 10, w - 1);
      var s := Digits(n, w);
      assert s[..|s| - 1] == Digits(n / 10, w - 1);
      assert DigitValue(s[|s| - 1]) == n % 10;
    }
  }

  /** A `Date` as its UTC fields. */
  datatype DateTime = DateTime(year: int, month: int, day: int,
                               hour: int, minute: int, second: int, millisecond: int)
  {
    predicate Valid() {
      && MinYear <= year <= MaxYear
      && 1 <= month <= 12 && 1 <= day <= 31
      && 0 <= hour < 24 && 0 <= minute < 60 && 0 <= second < 60
      && 0 <= millisecond < 1000
    }
  }

  /** A date the calendar widget can hand over: never an invalid `Date`. */
  type Instant = t: DateTime | t.Valid() witness DateTime(1970, 1, 1, 0, 0, 0, 0)

  /** A day, without time of day. */
  datatype CalendarDate = CalendarDate(year: int, month: int, day: int)
  {
    predicate Valid() {
      MinYear <= year <= MaxYear && 1 <= month <= 12 && 1 <= day <= 31
    }
  }

  function DayOf(t: Instant): (c: CalendarDate)
    ensures c.Valid()
  {
    CalendarDate(t.year, t.month, t.day)
  }

  predicate IsDateChar(ch: char) {
    IsDigit(ch) || ch == '-' || ch == '+'
  }

  /** The year as `toISOString` writes it: four digits for years 0 to 9999,
      otherwise a sign and six digits. */
  function YearText(y: int): (s: string)
    requires MinYear <= y <= MaxYear
    ensures |s| == (if 0 <= y <= 9999 then 4 else 7)
    ensures forall i :: 0 <= i < |s| ==> IsDateChar(s[i])
  {
    if 0 <= y <= 9999 then Digits(y, 4)
    else if y < 0 then "-" + Digits(-y, 6)
    else "+" + Digits(y, 6)
  }

  /** The `YYYY-MM-DD` text of a day. */
  function DateText(c: CalendarDate): (s: string)
    requires c.Valid()
    ensures |s| == (if 0 <= c.year <= 9999 then 10 else 13)
    ensures forall i :: 0 <= i < |s| ==> IsDateChar(s[i])
  {
    YearText(c.year) + "-" + Digits(c.month, 2) + "-" + Digits(c.day, 2)
  }

  /** `Date.prototype.toISOString`: `YYYY-MM-DDTHH:mm:ss.sssZ`, 24 characters,
      or 27 with a six-digit signed year. The date comes first, then `T` and a
      14-character time of day ending in `Z`. */
  function IsoString(t: Instant): (s: string)
    ensures |s| == (if 0 <= t.year <= 9999 then 24 else 27)
    ensures forall i :: 0 <= i < |s| - 14 ==> IsDateChar(s[i])
    ensures s[|s| - 14] == 'T' && s[|s| - 1] == 'Z'
  {
    DateText(DayOf(t)) + "T" + Digits(t.hour, 2) + ":" + Digits(t.minute, 2) + ":"
      + Digits(t.second, 2) + "." + Digits(t.millisecond, 3) + "Z"
  }

  /** `s.split(sep)[0]`: the longest prefix of `s` that holds no `sep`. */
  function BeforeFirst(s: string, sep: char): (r: string)
    ensures r <= s && sep !in r
    ensures |r| < |s| ==> s[|r|] == sep
  {
    if s == [] || s[0] == sep then [] else [s[0]] + BeforeFirst(s[1..], sep)
  }

  /** The value a date filter is sent as: `date.toISOString().split('T')[0]`,
      the whole of the timestamp before its `T`. */
  function DatePart(t: Instant): (r: string)
    ensures r <= IsoString(t) && 'T' !in r
    ensures |r| == |IsoString(t)| - 14 && IsoString(t)[|r|] == 'T'
  {
    var s := IsoString(t);
    var r := BeforeFirst(s, 'T');
    assert !IsDateChar('T');
    assert s[..|s| - 14] <= s && 'T' !in s[..|s| - 14];
    r
  }

  /** Splitting a text that starts with a separator-free piece and then the
      separator gives that piece. */
  lemma {:induction false} BeforeFirstOfPrefix(piece: string, sep: char, rest: string)
    requires sep !in piece
    ensures BeforeFirst(piece + [sep] + rest, sep) == piece
  {
    if piece != [] {
      assert (piece + [sep] + rest)[1..] == piece[1..] + [sep] + rest;
      BeforeFirstOfPrefix(piece[1..], sep, rest);
    }
  }

  /** The date part is exactly the day's `YYYY-MM-DD` text, whatever the time of day;
      for years 0 to 9999 that is ten characters. */
  lemma DatePartIsDateText(t: Instant)
    ensures DatePart(t) == DateText(DayOf(t))
    ensures 0 <= t.year <= 9999 ==> |DatePart(t)| == 10
  {
    var d := DateText(DayOf(t));
    var rest := Digits(t.hour, 2) + ":" + Digits(t.minute, 2) + ":"
      + Digits(t.second, 2) + "." + Digits(t.millisecond, 3) + "Z";
    assert IsoString(t) == d + ['T'] + rest;
    assert 'T' !in d by {
      forall i | 0 <= i < |d| ensures d[i] != 'T' {
        assert IsDateChar(d[i]);
      }
    }
    BeforeFirstOfPrefix(d, 'T', rest);
  }

  /** Reads `YYYY-MM-DD`, or the six-digit signed year form, back into a day. */
  function ParseDate(s: string): Option<CalendarDate> {
    if |s| == 10 && s[4] == '-' && s[7] == '-'
       && AllDigits(s[..4]) && AllDigits(s[5..7]) && AllDigits(s[8..])
    then Some(CalendarDate(DigitsValue(s[..4]), DigitsValue(s[5..7]), DigitsValue(s[8..])))
    else if |s| == 13 && (s[0] == '+' || s[0] == '-') && s[7] == '-' && s[10] == '-'
       && AllDigits(s[1..7]) && AllDigits(s[8..10]) && AllDigits(s[11..])
    then
      var magnitude: int := DigitsValue(s[1..7]);
      Some(CalendarDate(if s[0] == '-' then -magnitude else magnitude,
                        DigitsValue(s[8..10]), DigitsValue(s[11..])))
    else None
  }

  /** A day of a four-digit year reads back from its `YYYY-MM-DD` text. */
  lemma FourDigitYearRoundTrip(c: CalendarDate)
    requires c.Valid() && 0 <= c.year <= 9999
    ensures ParseDate(DateText(c)) == Some(c)
  {
    var s := DateText(c);
    DigitsRoundTrip(c.year, 4);
    DigitsRoundTrip(c.month, 2);
    DigitsRoundTrip(c.day, 2);
    assert s[..4] == Digits(c.year, 4);
    assert s[5..7] == Digits(c.month, 2);
    assert s[8..] == Digits(c.day, 2);
  }

  /** The pieces of the text of a day whose year is outside 0 to 9999. */
  lemma SignedYearLayout(c: CalendarDate)
    requires c.Valid() && !(0 <= c.year <= 9999)
    ensures |DateText(c)| == 13
    ensures DateText(c)[0] == (if c.year < 0 then '-' else '+')
    ensures DateText(c)[1..7] == Digits(if c.year < 0 then -c.year else c.year, 6)
    ensures DateText(c)[7] == '-' && DateText(c)[10] == '-'
    ensures DateText(c)[8..10] == Digits(c.month, 2) && DateText(c)[11..] == Digits(c.day, 2)
  {
    var y := YearText(c.year);
    assert y[1..] == Digits(if c.year < 0 then -c.year else c.year, 6);
  }

  /** A day of a year outside 0 to 9999 reads back from its signed six-digit text. */
  lemma SignedYearRoundTrip(c: CalendarDate)
    requires c.Valid() && !(0 <= c.year <= 9999)
    ensures ParseDate(DateText(c)) == Some(c)
  {
    var magnitude := if c.year < 0 then -c.year else c.year;
    assert magnitude < Pow10(6);
    SignedYearLayout(c);
    DigitsRoundTrip(magnitude, 6);
    DigitsRoundTrip(c.month, 2);
    DigitsRoundTrip(c.day, 2);
  }

  /** Every day's text reads back as that day, so distinct days are sent as distinct text. */
  lemma DateTextRoundTrip(c: CalendarDate)
    requires c.Valid()
    ensures ParseDate(DateText(c)) == Some(c)
  {
    if 0 <= c.year <= 9999 {
      FourDigitYearRoundTrip(c);
    } else {
      SignedYearRoundTrip(c);
    }
  }

  /** Any time on 5 March 2024 is sent as "2024-03-05". */
  lemma DatePartExample(t: Instant)
    requires t.year == 2024 && t.month == 3 && t.day == 5
    ensures DatePart(t) == "2024-03-05"
  {
    DatePartIsDateText(t);
    assert Digits(2024, 4) == "2024";
    assert Digits(3, 2) == "03";
    assert Digits(5, 2) == "05";
  }
}
