/**
 The stored form of a timestamp: UTC RFC 3339 text whose fraction drops trailing zeros,
 compared after the trailing `Z` is stripped.
*/
module Timestamps {
  import opened Ordering

  /** A UTC civil time; every row keeps one with a four-digit year. */
  datatype Civil = Civil(year: nat, month: nat, day: nat, hour: nat, minute: nat, second: nat, nanos: nat) {
    predicate Valid() {
      && year <= 9999
      && 1 <= month <= 12 && 1 <= day <= DaysIn(year, month)
      && hour < 24 && minute < 60 && second < 60 && nanos < 1_000_000_000
    }

    /** Calendar order, field by field from the year down. */
    predicate Earlier(that: Civil) {
      || year < that.year
      || (year == that.year && (month < that.month
      || (month == that.month && (day < that.day
      || (day == that.day && (hour < that.hour
      || (hour == that.hour && (minute < that.minute
      || (minute == that.minute && (second < that.second
      || (second == that.second && nanos < that.nanos)))))))))))
    }
  }

  function DaysIn(year: nat, month: nat): nat {
    if month in {4, 6, 9, 11} then 30
    else if month != 2 then 31
    else if year % 4 == 0 && (year % 100 != 0 || year % 400 == 0) then 29 else 28
  }

  type Instant = c: Civil | c.Valid() witness Civil(1, 1, 1, 0, 0, 0, 0)

  function Digit(d: nat): char
    requires d < 10
  {
    ['0', '1', '2', '3', '4', '5', '6', '7', '8', '9'][d]
  }

  /** `value` in exactly `width` decimal digits. */
  function Padded(value: nat, width: nat): (text: string)
    ensures |text| == width
  {
    if width == 0 then "" else Padded(value / 10, width - 1) + [Digit(value % 10)]
  }

  function Pow10(width: nat): nat {
    if width == 0 then 1 else 10 * Pow10(width - 1)
  }

  predicate AllZero(digits: string) {
    forall i | 0 <= i < |digits| :: digits[i] == '0'
  }

  function TrimZeros(digits: string): string {
    if AllZero(digits) then "" else [digits[0]] + TrimZeros(digits[1..])
  }

  /** The fraction with its trailing zeros gone; nothing at all for a whole second. */
  function Fraction(nanos: nat): string {
    if AllZero(Padded(nanos, 9)) then "" else "." + TrimZeros(Padded(nanos, 9))
  }

  function DateAndTime(c: Instant): string {
    Padded(c.year, 4) + "-" + Padded(c.month, 2) + "-" + Padded(c.day, 2) + "T"
    + Padded(c.hour, 2) + ":" + Padded(c.minute, 2) + ":" + Padded(c.second, 2)
  }

  /** The column text. */
  function FormatTime(c: Instant): string {
    DateAndTime(c) + Fraction(c.nanos) + "Z"
  }

  function TrimRight(text: string, c: char): string {
    if text != "" && text[|text| - 1] == c then TrimRight(text[..|text| - 1], c) else text
  }

  /** What the queries sort by. */
  function SortKey(c: Instant): string {
    TrimRight(FormatTime(c), 'Z')
  }

  /** Fixed-width decimals sort as numbers. */
  lemma {:induction false} PaddedOrder(a: nat, b: nat, width: nat)
    requires a < Pow10(width) && b < Pow10(width)
    ensures LexLess(Padded(a, width), Padded(b, width)) <==> a < b
    ensures Padded(a, width) == Padded(b, width) <==> a == b
  {
    if width > 0 {
      PaddedOrder(a / 10, b / 10, width - 1);
      LexConcat(Padded(a / 10, width - 1), Padded(b / 10, width - 1), [Digit(a % 10)], [Digit(b % 10)]);
      var p, q := Padded(a / 10, width - 1), Padded(b / 10, width - 1);
      assert (p + [Digit(a % 10)])[..width - 1] == p && (q + [Digit(b % 10)])[..width - 1] == q;
      assert (p + [Digit(a % 10)])[width - 1] == Digit(a % 10) && (q + [Digit(b % 10)])[width - 1] == Digit(b % 10);
    }
  }

  lemma PaddedDigits(value: nat, width: nat)
    ensures forall i | 0 <= i < width :: '0' <= Padded(value, width)[i] <= '9'
  {
  }

  /** Dropping trailing zeros from equal-width fractions leaves their order alone. */
  lemma {:induction false} TrimZerosOrder(d: string, e: string)
    requires |d| == |e|
    requires forall i | 0 <= i < |d| :: '0' <= d[i] && '0' <= e[i]
    ensures LexLess(TrimZeros(d), TrimZeros(e)) <==> LexLess(d, e)
    ensures TrimZeros(d) == TrimZeros(e) <==> d == e
  {
    if d != "" {
      TrimZerosOrder(d[1..], e[1..]);
      assert d == [d[0]] + d[1..] && e == [e[0]] + e[1..];
      AllZeroHead(d);
      AllZeroHead(e);
      if AllZero(d) && AllZero(e) {
        assert d == e;
        LexTrichotomy(d, e);
      }
    }
  }

  lemma AllZeroHead(d: string)
    requires d != ""
    ensures AllZero(d) <==> d[0] == '0' && AllZero(d[1..])
    ensures AllZero(d[1..]) ==> TrimZeros(d[1..]) == ""
  {
    if d[0] == '0' && AllZero(d[1..]) {
      forall i | 0 <= i < |d| ensures d[i] == '0' {
        assert i > 0 ==> d[i] == d[1..][i - 1];
      }
    }
  }

  lemma FractionOrder(a: nat, b: nat)
    requires a < 1_000_000_000 && b < 1_000_000_000
    ensures LexLess(Fraction(a), Fraction(b)) <==> a < b
    ensures Fraction(a) == Fraction(b) <==> a == b
  {
    var d, e := Padded(a, 9), Padded(b, 9);
    assert Pow10(9) == 1_000_000_000;
    PaddedOrder(a, b, 9);
    PaddedDigits(a, 9);
    PaddedDigits(b, 9);
    TrimZerosOrder(d, e);
    LexConcat(".", ".", TrimZeros(d), TrimZeros(e));
    LexTrichotomy(".", ".");
    assert ("." + TrimZeros(d))[1..] == TrimZeros(d) && ("." + TrimZeros(e))[1..] == TrimZeros(e);
  }

  /** One fixed-width field, its separator, and the rest. */
  lemma FieldOrder(a: nat, b: nat, width: nat, sep: string, x: string, y: string)
    requires a < Pow10(width) && b < Pow10(width)
    ensures LexLess(Padded(a, width) + (sep + x), Padded(b, width) + (sep + y)) <==> a < b || (a == b && LexLess(x, y))
    ensures Padded(a, width) + (sep + x) == Padded(b, width) + (sep + y) <==> a == b && x == y
  {
    PaddedOrder(a, b, width);
    LexConcat(Padded(a, width), Padded(b, width), sep + x, sep + y);
    LexConcat(sep, sep, x, y);
    LexTrichotomy(sep, sep);
    var s, t := Padded(a, width) + (sep + x), Padded(b, width) + (sep + y);
    assert s[..width] == Padded(a, width) && t[..width] == Padded(b, width);
    assert s[width..] == sep + x && t[width..] == sep + y;
    assert (sep + x)[|sep|..] == x && (sep + y)[|sep|..] == y;
  }

  function FromSecond(c: Instant): string { Padded(c.second, 2) + ("" + Fraction(c.nanos)) }
  function FromMinute(c: Instant): string { Padded(c.minute, 2) + (":" + FromSecond(c)) }
  function FromHour(c: Instant): string { Padded(c.hour, 2) + (":" + FromMinute(c)) }
  function FromDay(c: Instant): string { Padded(c.day, 2) + ("T" + FromHour(c)) }
  function FromMonth(c: Instant): string { Padded(c.month, 2) + ("-" + FromDay(c)) }
  function FromYear(c: Instant): string { Padded(c.year, 4) + ("-" + FromMonth(c)) }

  lemma FieldsCompose(c: Instant)
    ensures DateAndTime(c) + Fraction(c.nanos) == FromYear(c)
  {
  }

  lemma FromDayOrder(a: Instant, b: Instant)
    ensures LexLess(FromDay(a), FromDay(b)) <==> EarlierInMonth(a, b)
    ensures FromDay(a) == FromDay(b)
            <==> (a.day, a.hour, a.minute, a.second, a.nanos) == (b.day, b.hour, b.minute, b.second, b.nanos)
  {
    assert Pow10(2) == 100;
    FractionOrder(a.nanos, b.nanos);
    FieldOrder(a.second, b.second, 2, "", Fraction(a.nanos), Fraction(b.nanos));
    FieldOrder(a.minute, b.minute, 2, ":", FromSecond(a), FromSecond(b));
    FieldOrder(a.hour, b.hour, 2, ":", FromMinute(a), FromMinute(b));
    FieldOrder(a.day, b.day, 2, "T", FromHour(a), FromHour(b));
  }

  /** Order from the day down, for instants of one month. */
  predicate EarlierInMonth(a: Instant, b: Instant) {
    var c, d := Civil(0, 0, a.day, a.hour, a.minute, a.second, a.nanos),
                Civil(0, 0, b.day, b.hour, b.minute, b.second, b.nanos);
    c.Earlier(d)
  }

  /** Digits, separators and fraction never contain the stripped character. */
  lemma {:induction false} TrimRightOnce(text: string, c: char)
    requires c !in text
    ensures TrimRight(text + [c], c) == text
  {
    assert (text + [c])[..|text|] == text;
  }

  lemma {:induction false} TrimZerosKeeps(digits: string)
    ensures forall c | c in TrimZeros(digits) :: c in digits
  {
    if !AllZero(digits) {
      TrimZerosKeeps(digits[1..]);
    }
  }

  lemma KeyIsText(c: Instant)
    ensures SortKey(c) == FromYear(c)
  {
    var text := DateAndTime(c) + Fraction(c.nanos);
    PaddedDigits(c.year, 4);
    PaddedDigits(c.month, 2);
    PaddedDigits(c.day, 2);
    PaddedDigits(c.hour, 2);
    PaddedDigits(c.minute, 2);
    PaddedDigits(c.second, 2);
    PaddedDigits(c.nanos, 9);
    TrimZerosKeeps(Padded(c.nanos, 9));
    assert 'Z' !in Fraction(c.nanos);
    assert 'Z' !in DateAndTime(c);
    assert 'Z' !in text;
    TrimRightOnce(text, 'Z');
    FieldsCompose(c);
  }

  /** Sorting the stripped text is sorting by time, and distinct instants never tie. */
  lemma SortKeyIsChronological(a: Instant, b: Instant)
    ensures LexLess(SortKey(a), SortKey(b)) <==> a.Earlier(b)
    ensures SortKey(a) == SortKey(b) <==> a == b
  {
    KeyIsText(a);
    KeyIsText(b);
    assert Pow10(2) == 100 && Pow10(4) == 10_000;
    FromDayOrder(a, b);
    FieldOrder(a.month, b.month, 2, "-", FromDay(a), FromDay(b));
    FieldOrder(a.year, b.year, 4, "-", FromMonth(a), FromMonth(b));
  }

  /** Without stripping, a whole second would sort after its own fractions. */
  lemma UnstrippedTextMisorders()
    ensures exists a: Instant, b: Instant :: a.Earlier(b) && LexLess(FormatTime(b), FormatTime(a))
  {
    var a: Instant := Civil(2026, 9, 23, 1, 0, 0, 0);
    var b: Instant := Civil(2026, 9, 23, 1, 0, 0, 100_000_000);
    assert Fraction(0) == "" by {
      PaddedZero(9);
    }
    var head := DateAndTime(a);
    assert FormatTime(a) == head + ("" + "Z");
    assert FormatTime(b) == head + (Fraction(b.nanos) + "Z");
    SortKeyIsChronological(a, b);
    FractionOrder(0, b.nanos);
    assert Fraction(b.nanos)[0] == '.';
    LexConcat(head, head, Fraction(b.nanos) + "Z", "" + "Z");
    assert LexLess(FormatTime(b), FormatTime(a));
  }

  lemma {:induction false} PaddedZero(width: nat)
    ensures AllZero(Padded(0, width))
  {
    if width > 0 {
      PaddedZero(width - 1);
    }
  }
}
