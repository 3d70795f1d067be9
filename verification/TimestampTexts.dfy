/** The text of a timestamp, read back field by field (RFC 3339, section 5.6). */
module TimestampTexts {
  import opened Timestamps

  function NumberOf(digits: string): int {
    if digits == "" then 0 else NumberOf(digits[..|digits| - 1]) * 10 + (digits[|digits| - 1] as int - '0' as int)
  }

  /** The digits of a number, in a field of its text. */
  predicate Reads(text: string, from: nat, to: nat, value: nat) {
    && from <= to <= |text| && NumberOf(text[from..to]) == value
    && forall i | from <= i < to :: '0' <= text[i] <= '9'
  }

  lemma {:induction false} PaddedReads(value: nat, width: nat)
    requires value < Pow10(width)
    ensures NumberOf(Padded(value, width)) == value
  {
    if width > 0 {
      PaddedReads(value / 10, width - 1);
      var before := Padded(value / 10, width - 1);
      assert (before + [Digit(value % 10)])[..width - 1] == before;
    }
  }

  lemma {:induction false} TrimmedReads(digits: string)
    ensures var kept := TrimZeros(digits);
      && |kept| <= |digits| && kept == digits[..|kept|] && (kept != "" ==> kept[|kept| - 1] != '0')
      && forall i | |kept| <= i < |digits| :: digits[i] == '0'
  {
    if !AllZero(digits) {
      TrimmedReads(digits[1..]);
      assert digits == [digits[0]] + digits[1..];
      AllZeroHead(digits);
    }
  }

  lemma {:induction false} ZerosScale(digits: string, n: nat)
    requires n <= |digits| && forall i | n <= i < |digits| :: digits[i] == '0'
    ensures NumberOf(digits) == NumberOf(digits[..n]) * Pow10(|digits| - n)
    decreases |digits|
  {
    if n == |digits| {
      assert digits[..n] == digits;
    } else {
      var before := digits[..|digits| - 1];
      ZerosScale(before, n);
      assert before[..n] == digits[..n];
      Scale(NumberOf(digits[..n]), Pow10(|digits| - 1 - n));
    }
  }

  lemma Scale(a: int, b: int)
    ensures a * b * 10 == a * (10 * b)
  {
  }

  /** A fraction is left out if it is zero; otherwise it has a dot and 1 to 9 digits, the last one not zero. */
  predicate ReadsAsNanos(fraction: string, nanos: nat) {
    if nanos == 0 then fraction == ""
    else
      && 2 <= |fraction| <= 10 && fraction[0] == '.' && fraction[|fraction| - 1] != '0'
      && (forall i | 1 <= i < |fraction| :: '0' <= fraction[i] <= '9')
      && NumberOf(fraction[1..]) * Pow10(10 - |fraction|) == nanos
  }

  lemma KeptReads(digits: string, kept: string)
    requires |digits| == 9 && (forall i | 0 <= i < 9 :: '0' <= digits[i] <= '9') && NumberOf(digits) > 0
    requires |kept| <= 9 && kept == digits[..|kept|] && (kept != "" ==> kept[|kept| - 1] != '0')
    requires forall i | |kept| <= i < 9 :: digits[i] == '0'
    ensures ReadsAsNanos("." + kept, NumberOf(digits))
  {
    ZerosScale(digits, |kept|);
    assert ("." + kept)[1..] == kept;
  }

  lemma AllZeroIsNothing(digits: string)
    requires AllZero(digits)
    ensures NumberOf(digits) == 0
  {
    ZerosScale(digits, 0);
    assert digits[..0] == "";
  }

  lemma {:induction false} NothingIsAllZero(digits: string)
    requires (forall i | 0 <= i < |digits| :: '0' <= digits[i] <= '9')
    ensures NumberOf(digits) >= 0 && (NumberOf(digits) == 0 ==> AllZero(digits))
    decreases |digits|
  {
    if digits != "" {
      NothingIsAllZero(digits[..|digits| - 1]);
    }
  }

  lemma FractionReads(nanos: nat)
    requires nanos < 1_000_000_000
    ensures ReadsAsNanos(Fraction(nanos), nanos)
  {
    var digits := Padded(nanos, 9);
    assert Pow10(9) == 1_000_000_000;
    PaddedReads(nanos, 9);
    PaddedDigits(nanos, 9);
    if AllZero(digits) {
      AllZeroIsNothing(digits);
    } else {
      NothingIsAllZero(digits);
      TrimmedReads(digits);
      KeptReads(digits, TrimZeros(digits));
    }
  }

  /** Where the fields and the separators between them are. */
  predicate ReadsAsFields(text: string, c: Instant) {
    && |text| >= 19
    && Reads(text, 0, 4, c.year) && text[4] == '-' && Reads(text, 5, 7, c.month) && text[7] == '-'
    && Reads(text, 8, 10, c.day) && text[10] == 'T' && Reads(text, 11, 13, c.hour) && text[13] == ':'
    && Reads(text, 14, 16, c.minute) && text[16] == ':' && Reads(text, 17, 19, c.second)
  }

  /** A field that begins at position `k`. */
  lemma FieldAt(text: string, k: nat, value: nat, width: nat, after: string)
    requires value < Pow10(width) && k <= |text| && text[k..] == Padded(value, width) + after
    ensures Reads(text, k, k + width, value) && text[k + width..] == after
  {
    PaddedReads(value, width);
    PaddedDigits(value, width);
    var rest := text[k..];
    assert rest[..width] == Padded(value, width) && rest[width..] == after;
    assert text[k..k + width] == rest[..width] && text[k + width..] == rest[width..];
    assert forall i | k <= i < k + width :: text[i] == rest[i - k];
  }

  lemma SeparatedFieldAt(text: string, k: nat, value: nat, width: nat, separator: char, after: string)
    requires value < Pow10(width) && k <= |text| && text[k..] == Padded(value, width) + ([separator] + after)
    ensures Reads(text, k, k + width, value) && k + width < |text| && text[k + width] == separator
    ensures text[k + width + 1..] == after
  {
    FieldAt(text, k, value, width, [separator] + after);
    var rest := text[k + width..];
    assert rest[0] == separator && rest[1..] == after;
    assert text[k + width + 1..] == rest[1..];
  }

  lemma FieldsRead(c: Instant)
    ensures ReadsAsFields(FromYear(c), c) && FromYear(c)[19..] == Fraction(c.nanos)
  {
    var text := FromYear(c);
    assert Pow10(2) == 100 && Pow10(4) == 10_000;
    assert text[0..] == text;
    SeparatedFieldAt(text, 0, c.year, 4, '-', FromMonth(c));
    SeparatedFieldAt(text, 5, c.month, 2, '-', FromDay(c));
    SeparatedFieldAt(text, 8, c.day, 2, 'T', FromHour(c));
    SeparatedFieldAt(text, 11, c.hour, 2, ':', FromMinute(c));
    SeparatedFieldAt(text, 14, c.minute, 2, ':', FromSecond(c));
    assert "" + Fraction(c.nanos) == Fraction(c.nanos);
    FieldAt(text, 17, c.second, 2, Fraction(c.nanos));
  }

  lemma LongerReads(text: string, more: string, c: Instant)
    requires ReadsAsFields(text, c)
    ensures ReadsAsFields(text + more, c)
  {
    forall i, j | 0 <= i <= j <= |text| ensures (text + more)[i..j] == text[i..j] {
    }
  }

  /**
   Every stored text reads back: the fields in their places, a fraction exactly of the nanoseconds
   and only if there are some, and a Z at the end; what the queries sort by is the text without it.
  */
  lemma TextReadsBack(c: Instant)
    ensures var text := FormatTime(c);
      && ReadsAsFields(text, c) && text[|text| - 1] == 'Z' && ReadsAsNanos(text[19..|text| - 1], c.nanos)
      && SortKey(c) == text[..|text| - 1]
  {
    FieldsRead(c);
    FieldsCompose(c);
    KeyIsText(c);
    FractionReads(c.nanos);
    LongerReads(FromYear(c), "Z", c);
    var text := FormatTime(c);
    assert text == FromYear(c) + "Z" && text[..|text| - 1] == FromYear(c);
    assert text[19..|text| - 1] == FromYear(c)[19..];
  }
}
