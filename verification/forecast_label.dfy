/**
 * The day label of a forecast card: a provider date `YYYY-MM-DD` shown as
 * `DD-MM` by slicing characters 8 to 10 and 5 to 7 (components/Main.tsx).
 */
module ForecastLabel {
  import opened JsString

  /** `date.slice(8, 10) + '-' + date.slice(5, 7)`, total over every string. */
  function DayMonth(date: string): (r: string)
    ensures |r| <= 5
    ensures |date| >= 10 ==> |r| == 5 && r[2] == '-' && r == date[8..10] + "-" + date[5..7]
    ensures |date| <= 5 ==> r == "-"
  {
    Slice(date, 8, 10) + "-" + Slice(date, 5, 7)
  }

  /** The decimal digit character for `n`. */
  function DigitChar(n: nat): (c: char)
    requires n < 10
    ensures '0' <= c <= '9'
  {
    (48 + n) as char
  }

  function DigitValue(c: char): int {
    c as int - 48
  }

  /** `n` written with exactly two digits, zero-padded. */
  function TwoDigits(n: nat): (r: string)
    requires n < 100
    ensures |r| == 2
  {
    [DigitChar(n / 10), DigitChar(n % 10)]
  }

  /** `n` written with exactly four digits, zero-padded. */
  function FourDigits(n: nat): (r: string)
    requires n < 10000
    ensures |r| == 4
  {
    TwoDigits(n / 100) + TwoDigits(n % 100)
  }

  function ReadTwoDigits(s: string): int
    requires |s| == 2
  {
    DigitValue(s[0]) * 10 + DigitValue(s[1])
  }

  /** The provider's date format: `YYYY-MM-DD`. */
  function IsoDate(year: nat, month: nat, day: nat): (r: string)
    requires year < 10000 && month < 100 && day < 100
    ensures |r| == 10 && r[4] == '-' && r[7] == '-'
  {
    FourDigits(year) + "-" + TwoDigits(month) + "-" + TwoDigits(day)
  }

  /** Reads a `DD-MM` label back into its day and month numbers. */
  function ParseDayMonth(text: string): (int, int)
    requires |text| == 5
  {
    (ReadTwoDigits(text[..2]), ReadTwoDigits(text[3..]))
  }

  lemma TwoDigitsRoundTrip(n: nat)
    requires n < 100
    ensures ReadTwoDigits(TwoDigits(n)) == n
  {
  }

  /**
   * The label of a provider date is its day then its month, each two
   * digits, and reading the label back gives the day and the month.
   */
  lemma {:induction false} LabelOfIsoDate(year: nat, month: nat, day: nat)
    requires year < 10000 && month < 100 && day < 100
    ensures DayMonth(IsoDate(year, month, day)) == TwoDigits(day) + "-" + TwoDigits(month)
    ensures ParseDayMonth(DayMonth(IsoDate(year, month, day))) == (day, month)
  {
    var d := IsoDate(year, month, day);
    assert d[8..10] == TwoDigits(day);
    assert d[5..7] == TwoDigits(month);
    var text := TwoDigits(day) + "-" + TwoDigits(month);
    assert text[..2] == TwoDigits(day);
    assert text[3..] == TwoDigits(month);
    TwoDigitsRoundTrip(day);
    TwoDigitsRoundTrip(month);
  }
}
