/**
 * Gregorian calendar dates, the previous calendar day, and the `YYYY-MM-DD`
 * rendering the reporting job uses for its date range.
 *
 * Years are astronomical (year 0 exists, negative years are allowed), so
 * that the day before any valid date is again a valid date.
 */
module Calendar {
  import opened Common

  datatype Date = Date(year: int, month: int, day: int)

  predicate IsLeapYear(year: int)
  {
    year % 4 == 0 && (year % 100 != 0 || year % 400 == 0)
  }

  function DaysInMonth(year: int, month: int): (n: int)
    requires 1 <= month <= 12
    ensures 28 <= n <= 31
  {
    if month == 2 then (if IsLeapYear(year) then 29 else 28)
    else if month == 4 || month == 6 || month == 9 || month == 11 then 30
    else 31
  }

  predicate ValidDate(d: Date)
  {
    1 <= d.month <= 12 && 1 <= d.day <= DaysInMonth(d.year, d.month)
  }

  /** Chronological order on dates: by year, then month, then day. */
  predicate Before(a: Date, b: Date)
  {
    a.year < b.year ||
    (a.year == b.year && (a.month < b.month || (a.month == b.month && a.day < b.day)))
  }

  /** The calendar day after `d`. */
  function NextDay(d: Date): (n: Date)
    requires ValidDate(d)
    ensures ValidDate(n) && Before(d, n)
  {
    if d.day < DaysInMonth(d.year, d.month) then Date(d.year, d.month, d.day + 1)
    else if d.month < 12 then Date(d.year, d.month + 1, 1)
    else Date(d.year + 1, 1, 1)
  }

  /** The calendar day before `d`: "yesterday" when `d` is today. */
  function PreviousDay(d: Date): (p: Date)
    requires ValidDate(d)
    ensures ValidDate(p) && Before(p, d)
    ensures NextDay(p) == d
  {
    if d.day > 1 then Date(d.year, d.month, d.day - 1)
    else if d.month > 1 then Date(d.year, d.month - 1, DaysInMonth(d.year, d.month - 1))
    else Date(d.year - 1, 12, 31)
  }

  /** Going forward a day and back again returns to the same date. */
  lemma PreviousOfNext(d: Date)
    requires ValidDate(d)
    ensures PreviousDay(NextDay(d)) == d
  {
    var n := NextDay(d);
    if d.day < DaysInMonth(d.year, d.month) {
      assert n.day > 1;
    } else if d.month < 12 {
      assert n == Date(d.year, d.month + 1, 1);
    } else {
      assert n == Date(d.year + 1, 1, 1);
    }
  }

  /** No valid date lies strictly between the previous day and the day itself. */
  lemma PreviousDayIsAdjacent(d: Date, e: Date)
    requires ValidDate(d) && ValidDate(e)
    ensures !(Before(PreviousDay(d), e) && Before(e, d))
  {
  }

  // ---- decimal digits ----

  predicate IsDigit(c: char)
  {
    '0' <= c <= '9'
  }

  predicate AllDigits(s: string)
  {
    forall i :: 0 <= i < |s| ==> IsDigit(s[i])
  }

  function DigitChar(k: int): (c: char)
    requires 0 <= k < 10
    ensures IsDigit(c)
  {
    ('0' as int + k) as char
  }

  function DigitValue(c: char): int
  {
    c as int - '0' as int
  }

  function Pow10(k: nat): (p: nat)
    ensures p >= 1
  {
    if k == 0 then 1 else 10 * Pow10(k - 1)
  }

  /** The decimal numeral of `n`, without leading zeros. */
  function Decimal(n: nat): (s: string)
    ensures |s| >= 1 && AllDigits(s)
  {
    if n < 10 then [DigitChar(n)] else Decimal(n / 10) + [DigitChar(n % 10)]
  }

  /** The value of a string of decimal digits, read most significant first. */
  function DecimalValue(s: string): int
  {
    if s == [] then 0 else DecimalValue(s[..|s| - 1]) * 10 + DigitValue(s[|s| - 1])
  }

  function Zeros(k: nat): (s: string)
    ensures |s| == k && AllDigits(s)
  {
    if k == 0 then "" else Zeros(k - 1) + "0"
  }

  /**
   * The zero-filled rendering of a number in at least `width` digits, with a
   * leading minus sign for negative numbers, as moment's `YYYY`, `MM` and
   * `DD` tokens produce it.
   */
  function ZeroFill(n: int, width: nat): string
  {
    var digits := Decimal(if n < 0 then -n else n);
    (if n < 0 then "-" else "") + Zeros(if |digits| < width then width - |digits| else 0) + digits
  }

  /** In `y-m-d` with a two-character `m` and `d`, the last five characters are `m-d`. */
  lemma JoinedTail(y: string, m: string, d: string)
    requires |m| == 2 && |d| == 2
    ensures var s := y + "-" + m + "-" + d;
            s[|s| - 6] == '-' && s[|s| - 3] == '-' && s[|s| - 5..|s| - 3] == m && s[|s| - 2..] == d
  {
  }

  /**
   * The `YYYY-MM-DD` rendering of a date. Whatever the year, a valid date's
   * month and day can be read back from the last five characters.
   */
  function FormatDate(d: Date): (s: string)
    ensures |s| >= 10
    ensures ValidDate(d) ==>
              && s[|s| - 6] == '-' && s[|s| - 3] == '-'
              && AllDigits(s[|s| - 5..|s| - 3]) && DecimalValue(s[|s| - 5..|s| - 3]) == d.month
              && AllDigits(s[|s| - 2..]) && DecimalValue(s[|s| - 2..]) == d.day
  {
    var year, month, day := ZeroFill(d.year, 4), ZeroFill(d.month, 2), ZeroFill(d.day, 2);
    if ValidDate(d) then
      assert Pow10(2) == 100;
      ZeroFillExact(d.month, 2);
      ZeroFillExact(d.day, 2);
      JoinedTail(year, month, day);
      year + "-" + month + "-" + day
    else
      year + "-" + month + "-" + day
  }

  /** Reads back a `YYYY-MM-DD` string with a four-digit year. */
  function ParseDate(s: string): Option<Date>
  {
    if |s| == 10 && s[4] == '-' && s[7] == '-'
       && AllDigits(s[..4]) && AllDigits(s[5..7]) && AllDigits(s[8..])
    then
      var d := Date(DecimalValue(s[..4]), DecimalValue(s[5..7]), DecimalValue(s[8..]));
      if ValidDate(d) then Some(d) else None
    else None
  }

  lemma {:induction false} DecimalValueOfDecimal(n: nat)
    ensures DecimalValue(Decimal(n)) == n
  {
    if n >= 10 {
      var s := Decimal(n / 10) + [DigitChar(n % 10)];
      assert s[..|s| - 1] == Decimal(n / 10);
      DecimalValueOfDecimal(n / 10);
    }
  }

  lemma {:induction false} DecimalWidth(n: nat, width: nat)
    requires 1 <= width && n < Pow10(width)
    ensures |Decimal(n)| <= width
  {
    if n >= 10 {
      assert width >= 2;
      assert n / 10 < Pow10(width - 1);
      DecimalWidth(n / 10, width - 1);
    }
  }

  lemma {:induction false} DecimalValueOfZeros(k: nat)
    ensures DecimalValue(Zeros(k)) == 0
  {
    if k > 0 {
      assert Zeros(k)[..k - 1] == Zeros(k - 1);
      DecimalValueOfZeros(k - 1);
    }
  }

  /** Leading zeros do not change the value of a numeral. */
  lemma {:induction false} DecimalValueLeadingZeros(k: nat, s: string)
    ensures DecimalValue(Zeros(k) + s) == DecimalValue(s)
    decreases |s|
  {
    if s == [] {
      assert Zeros(k) + s == Zeros(k);
      DecimalValueOfZeros(k);
    } else {
      var t := Zeros(k) + s;
      assert t[..|t| - 1] == Zeros(k) + s[..|s| - 1];
      DecimalValueLeadingZeros(k, s[..|s| - 1]);
    }
  }

  /** A non-negative number below 10^width zero-fills to exactly `width` digits that read back as it. */
  lemma ZeroFillExact(n: int, width: nat)
    requires 1 <= width && 0 <= n < Pow10(width)
    ensures |ZeroFill(n, width)| == width
    ensures AllDigits(ZeroFill(n, width))
    ensures DecimalValue(ZeroFill(n, width)) == n
  {
    var digits := Decimal(n);
    DecimalWidth(n, width);
    var z := Zeros(width - |digits|);
    assert ZeroFill(n, width) == z + digits;
    DecimalValueLeadingZeros(width - |digits|, digits);
    DecimalValueOfDecimal(n);
  }

  /** Formatting is undone by parsing, for every date with a four-digit year. */
  lemma FormatParseRoundTrip(d: Date)
    requires ValidDate(d) && 0 <= d.year <= 9999
    ensures ParseDate(FormatDate(d)) == Some(d)
  {
    assert Pow10(2) == 100;
    assert Pow10(4) == 10000;
    ZeroFillExact(d.year, 4);
    ZeroFillExact(d.month, 2);
    ZeroFillExact(d.day, 2);
    var y, m, dd := ZeroFill(d.year, 4), ZeroFill(d.month, 2), ZeroFill(d.day, 2);
    var s := FormatDate(d);
    assert s == y + "-" + m + "-" + dd;
    assert s[..4] == y;
    assert s[5..7] == m;
    assert s[8..] == dd;
  }
}
