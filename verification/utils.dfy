/**
 * The string helpers of utils.ts that the filename depends on: JavaScript's decimal
 * rendering of integers, `padStart(2, '0')`, `slice(-2)`, and `getFilenameDate`.
 */
module Utils {
  import opened Wrappers

  predicate IsDigit(c: char) { '0' <= c <= '9' }

  predicate AllDigits(s: string) { forall i :: 0 <= i < |s| ==> IsDigit(s[i]) }

  function DigitChar(d: nat): (c: char)
    requires d < 10
    ensures IsDigit(c) && c as int - '0' as int == d
  {
    ('0' as int + d) as char
  }

  function DigitValue(c: char): (d: nat)
    requires IsDigit(c)
    ensures d < 10
  {
    c as int - '0' as int
  }

  /** `String(n)` for a non-negative integer: its decimal digits, no leading zero. */
  function NatToString(n: nat): (s: string)
    ensures |s| >= 1 && AllDigits(s)
    ensures s[|s| - 1] == DigitChar(n % 10)
    ensures n < 10 <==> |s| == 1
    ensures s[0] == '0' <==> n == 0
    decreases n
  {
    if n < 10 then [DigitChar(n)] else NatToString(n / 10) + [DigitChar(n % 10)]
  }

  /** `String(i)` for any integer (no exponent form: the integers used here are small). */
  function IntToString(i: int): string
  {
    if i < 0 then "-" + NatToString(-i) else NatToString(i)
  }

  /** The value of a string of decimal digits, most significant first. */
  function DecimalValue(s: string): nat
    requires AllDigits(s)
  {
    if s == [] then 0 else DecimalValue(s[..|s| - 1]) * 10 + DigitValue(s[|s| - 1])
  }

  /** Reading back what `NatToString` renders gives the number itself. */
  lemma {:induction false} DecimalRoundTrip(n: nat)
    ensures DecimalValue(NatToString(n)) == n
    decreases n
  {
    var s := NatToString(n);
    if n >= 10 {
      DecimalRoundTrip(n / 10);
      assert s[..|s| - 1] == NatToString(n / 10);
    }
  }

  /** An optionally signed decimal: a '-' followed by digits, or digits alone. */
  predicate IsSignedDecimal(s: string)
  {
    if |s| > 0 && s[0] == '-' then AllDigits(s[1..]) else AllDigits(s)
  }

  /** The value of an optionally signed decimal. */
  function SignedDecimalValue(s: string): int
    requires IsSignedDecimal(s)
  {
    if |s| > 0 && s[0] == '-' then -(DecimalValue(s[1..]) as int) else DecimalValue(s)
  }

  /**
   * Reading back what `IntToString` renders gives the integer; the rendering starts with
   * a minus sign exactly for negative integers.
   */
  lemma IntRoundTrip(i: int)
    ensures var s := IntToString(i);
      |s| >= 1 && IsSignedDecimal(s) && SignedDecimalValue(s) == i && (s[0] == '-' <==> i < 0)
  {
    if i < 0 {
      var d := NatToString(-i);
      assert ("-" + d)[1..] == d;
      DecimalRoundTrip(-i);
    } else {
      DecimalRoundTrip(i);
    }
  }

  /** `s.padStart(2, '0')`. */
  function PadStart2(s: string): (r: string)
    ensures |r| == if |s| >= 2 then |s| else 2
    ensures r[|r| - |s|..] == s
    ensures forall i :: 0 <= i < |r| - |s| ==> r[i] == '0'
  {
    if |s| >= 2 then s else seq(2 - |s|, _ => '0') + s
  }

  /** `s.slice(-2)`: the last two characters, or all of a shorter string. */
  function SliceLast2(s: string): (r: string)
    ensures |r| == if |s| >= 2 then 2 else |s|
    ensures s[|s| - |r|..] == r
  {
    if |s| >= 2 then s[|s| - 2..] else s
  }

  /**
   * What a successfully parsed `Date` reports: `getDate()`, `getMonth()` (zero-based)
   * and `getFullYear()`. Parsing itself is done by the host and is not modelled.
   */
  datatype DateParts = DateParts(day: nat, monthIndex: nat, fullYear: int)

  /** The ranges a real `Date` keeps its day of month and month index in. */
  predicate IsCalendarDate(d: DateParts)
  {
    1 <= d.day <= 31 && d.monthIndex < 12
  }

  const InvalidDateSentinel: string := "00.00.00"

  /**
   * `getFilenameDate`: `parsed` is None when `new Date(dateStr)` is NaN or throws.
   */
  function FilenameDate(parsed: Option<DateParts>): (r: string)
    ensures parsed.None? ==> r == "00.00.00"
  {
    match parsed
    case None => InvalidDateSentinel
    case Some(d) =>
      Dotted(PadStart2(NatToString(d.day)), PadStart2(NatToString(d.monthIndex + 1)),
             SliceLast2(IntToString(d.fullYear)))
  }

  /** The three date fields joined by dots. */
  function Dotted(dd: string, mm: string, yy: string): string
  {
    dd + "." + mm + "." + yy
  }

  /** The two decimal digits of a number below 100, tens first. */
  function TwoDigits(n: nat): (s: string)
    requires n < 100
    ensures |s| == 2 && AllDigits(s)
  {
    [DigitChar(n / 10), DigitChar(n % 10)]
  }

  /** Two digits read back as the number they were made from. */
  lemma TwoDigitsValue(n: nat)
    requires n < 100
    ensures DecimalValue(TwoDigits(n)) == n
  {
    var tens, units := DigitChar(n / 10), DigitChar(n % 10);
    assert [tens, units][..1] == [tens];
    assert [tens][..0] == [];
    assert DecimalValue([tens]) == DigitValue(tens);
  }

  /** A number below 100 padded to two characters is its two digits. */
  lemma {:induction false} PaddedTwoDigits(n: nat)
    requires n < 100
    ensures PadStart2(NatToString(n)) == TwoDigits(n)
  {
    if n < 10 {
      assert NatToString(n) == [DigitChar(n)];
      assert DigitChar(0) == '0';
    } else {
      assert NatToString(n / 10) == [DigitChar(n / 10)];
    }
  }

  /** The four parts of a concatenation can be sliced back out of it. */
  lemma ConcatFields(a: string, b: string, c: string, d: string)
    ensures var s := a + b + c + d;
      |s| == |a| + |b| + |c| + |d| && s[..|a|] == a && s[|a|..|a| + |b|] == b &&
      s[|a| + |b|..|s| - |d|] == c && s[|s| - |d|..] == d
  {
    var s := a + b + c + d;
    assert s == a + (b + (c + d));
  }

  /** Two two-character fields joined by dots sit at fixed offsets. */
  lemma DottedFields(a: string, b: string, c: string)
    requires |a| == 2 && |b| == 2
    ensures var r := Dotted(a, b, c);
      |r| == 6 + |c| && r[2] == '.' && r[5] == '.' && r[..2] == a && r[3..5] == b && r[6..] == c
  {
  }

  /** The year field of a calendar date: its last two characters of `String(year)`. */
  function YearField(d: DateParts): string
  {
    SliceLast2(IntToString(d.fullYear))
  }

  /** `getFilenameDate` of a parsed date is the two-digit day and month and the year field, dotted. */
  lemma FilenameDateShape(d: DateParts)
    requires IsCalendarDate(d)
    ensures FilenameDate(Some(d)) == Dotted(TwoDigits(d.day), TwoDigits(d.monthIndex + 1), YearField(d))
  {
    PaddedTwoDigits(d.day);
    PaddedTwoDigits(d.monthIndex + 1);
  }

  /**
   * For a calendar date the day and month fields are two digits each, separated by
   * dots at indices 2 and 5, and they read back as the day and the one-based month.
   */
  lemma FilenameDateFields(d: DateParts)
    requires IsCalendarDate(d)
    ensures var r := FilenameDate(Some(d));
      |r| >= 6 && r[2] == '.' && r[5] == '.' &&
      AllDigits(r[..2]) && DecimalValue(r[..2]) == d.day &&
      AllDigits(r[3..5]) && DecimalValue(r[3..5]) == d.monthIndex + 1 &&
      1 <= DecimalValue(r[3..5]) <= 12
  {
    FilenameDateShape(d);
    DottedFields(TwoDigits(d.day), TwoDigits(d.monthIndex + 1), YearField(d));
    TwoDigitsValue(d.day);
    TwoDigitsValue(d.monthIndex + 1);
  }

  /** The last two characters of a rendering of n >= 10 are the digits of n modulo 100. */
  lemma {:induction false} LastTwoDigits(n: nat)
    requires n >= 10
    ensures SliceLast2(NatToString(n)) == TwoDigits(n % 100)
  {
    var s := NatToString(n);
    var front := NatToString(n / 10);
    assert s == front + [DigitChar(n % 10)];
    assert s[|s| - 2] == front[|front| - 1];
    ModHundredDigits(n);
  }

  /** The tens and units digits of n are those of n modulo 100. */
  lemma ModHundredDigits(n: nat)
    ensures (n % 100) / 10 == (n / 10) % 10 && (n % 100) % 10 == n % 10
  {
    var q := n / 10;
    assert n == 10 * q + n % 10;
    assert q == 10 * (q / 10) + q % 10;
    assert n == 100 * (q / 10) + (10 * (q % 10) + n % 10);
  }

  /**
   * For a year of at least two digits the year field is two digits: the year modulo 100,
   * so the whole result is eight characters long.
   */
  lemma FilenameDateYear(d: DateParts)
    requires IsCalendarDate(d) && d.fullYear >= 10
    ensures var r := FilenameDate(Some(d));
      |r| == 8 && AllDigits(r[6..]) && DecimalValue(r[6..]) == d.fullYear % 100
  {
    var y: nat := d.fullYear;
    assert IntToString(y) == NatToString(y);
    LastTwoDigits(y);
    TwoDigitsValue(y % 100);
    FilenameDateShape(d);
    DottedFields(TwoDigits(d.day), TwoDigits(d.monthIndex + 1), YearField(d));
  }

  /** The example in the source's own comment: 01-Jan-2025 becomes 01.01.25. */
  lemma FilenameDateExample()
    ensures FilenameDate(Some(DateParts(1, 0, 2025))) == "01.01.25"
  {
    var d := DateParts(1, 0, 2025);
    FilenameDateShape(d);
    LastTwoDigits(2025);
    assert IntToString(2025) == NatToString(2025);
    assert DigitChar(0) == '0' && DigitChar(1) == '1' && DigitChar(2) == '2' && DigitChar(5) == '5';
    assert TwoDigits(1) == "01" && TwoDigits(25) == "25";
    assert Dotted("01", "01", "25") == "01.01.25";
  }
}
