/** Decimal rendering of calendar fields, as the watch face writes them:
    Kotlin's Int.toString, String.padStart, the engine's dateTimeNumber and
    the "HH.MM" / "YYYY.MM.DD" strings built in drawWatchFace. */
module Format {

  predicate IsDigit(c: char) { '0' <= c <= '9' }

  /** A string of decimal digits only (the empty string included). */
  predicate IsDecimal(s: string) {
    forall i :: 0 <= i < |s| ==> IsDigit(s[i])
  }

  /** The shape Int.toString gives a non-negative number: digits, no leading zero except "0" itself. */
  predicate Canonical(s: string) {
    IsDecimal(s) && s != [] && (s[0] == '0' ==> |s| == 1)
  }

  function DigitChar(d: int): (c: char)
    requires 0 <= d < 10
    ensures IsDigit(c) && DigitValue(c) == d
  {
    (48 + d) as char
  }

  function DigitValue(c: char): int
    requires IsDigit(c)
  {
    c as int - 48
  }

  /** The number a digit string denotes (leading zeros allowed). */
  function Value(s: string): nat
    requires IsDecimal(s)
  {
    if s == [] then 0 else Value(s[..|s| - 1]) * 10 + DigitValue(s[|s| - 1])
  }

  /** Int.toString of a non-negative number. */
  function NatToDecimal(n: nat): string
  {
    if n < 10 then [DigitChar(n)] else NatToDecimal(n / 10) + [DigitChar(n % 10)]
  }

  /** Int.toString: a minus sign in front of the magnitude for negative numbers. */
  function IntToString(n: int): string
  {
    var digits := NatToDecimal(if n < 0 then -n else n);
    if n < 0 then "-" + digits else digits
  }

  /** String.padStart: pads on the left with padChar up to length; longer strings are returned as they are. */
  function PadStart(s: string, length: nat, padChar: char): string
  {
    if |s| < length then seq(length - |s|, _ => padChar) + s else s
  }

  /** Int.toString of a non-negative number is canonical, and one character long exactly below 10. */
  lemma {:induction false} NatToDecimalCanonical(n: nat)
    ensures Canonical(NatToDecimal(n))
    ensures (|NatToDecimal(n)| == 1) == (n < 10)
  {
    if n >= 10 {
      NatToDecimalCanonical(n / 10);
    }
  }

  /** Int.toString reads back as the number it was made from. */
  lemma {:induction false} ValueOfDecimal(n: nat)
    ensures IsDecimal(NatToDecimal(n)) && Value(NatToDecimal(n)) == n
  {
    NatToDecimalCanonical(n);
    var s := NatToDecimal(n);
    if n >= 10 {
      ValueOfDecimal(n / 10);
      assert s[..|s| - 1] == NatToDecimal(n / 10);
    }
  }

  /** Int.toString of any number: canonical digits reading back as the number, behind a
      minus sign when it is negative. */
  lemma IntToStringDigits(n: int)
    ensures var r := IntToString(n);
      (n >= 0 ==> Canonical(r) && Value(r) == n) &&
      (n < 0 ==> |r| >= 2 && r[0] == '-' && Canonical(r[1..]) && Value(r[1..]) == -n)
  {
    var m := if n < 0 then -n else n;
    NatToDecimalCanonical(m);
    ValueOfDecimal(m);
    if n < 0 {
      assert IntToString(n)[1..] == NatToDecimal(m);
    }
  }

  /** padStart reaches the requested length, keeps the string as its suffix and fills the
      front with the pad character. */
  lemma PadStartShape(s: string, length: nat, padChar: char)
    ensures var r := PadStart(s, length, padChar);
      |r| == (if |s| < length then length else |s|) &&
      r[|r| - |s|..] == s &&
      (forall i :: 0 <= i < |r| - |s| ==> r[i] == padChar)
  {
  }

  /** dateTimeNumber: numbers below 10 are padded to two characters with '0'. */
  function DateTimeNumber(input: int): string
  {
    if input < 10 then PadStart(IntToString(input), 2, '0') else IntToString(input)
  }

  /** What dateTimeNumber gives: a single digit gets a leading '0', every non-negative number
      reads back as itself, two-digit fields are exactly two characters, numbers from 10 on
      are printed as they are, and negative numbers keep their sign. */
  lemma DateTimeNumberDigits(input: int)
    ensures var r := DateTimeNumber(input);
      (0 <= input < 10 ==> r == ['0', DigitChar(input)]) &&
      (input >= 0 ==> IsDecimal(r) && Value(r) == input) &&
      (0 <= input < 100 ==> |r| == 2) &&
      (input >= 10 ==> r == NatToDecimal(input) && Canonical(r) && |r| >= 2) &&
      (input < 0 ==> r == IntToString(input))
  {
    var r := DateTimeNumber(input);
    IntToStringDigits(input);
    if input < 10 {
      PadStartShape(IntToString(input), 2, '0');
    } else {
      NatToDecimalCanonical(input);
      NatToDecimalCanonical(input / 10);
    }
    if 0 <= input < 10 {
      assert r == ['0', DigitChar(input)];
      assert Value(r) == Value(r[..1]) * 10 + input;
    }
  }

  /** The time text: hour of day and minute, each through dateTimeNumber, joined by '.'. */
  function TimeText(hourOfDay: int, minute: int): string
  {
    DateTimeNumber(hourOfDay) + "." + DateTimeNumber(minute)
  }

  /** The date text: year, one-based month (the calendar's month is zero-based) and day,
      each through dateTimeNumber, joined by '.'. */
  function DateText(year: int, zeroBasedMonth: int, day: int): string
  {
    DateTimeNumber(year) + "." + DateTimeNumber(zeroBasedMonth + 1) + "." + DateTimeNumber(day)
  }

  /** For two-digit fields the time text is five characters with '.' in the middle, and its
      halves read back as hour and minute. */
  lemma TimeTextReadsBack(hourOfDay: int, minute: int)
    requires 0 <= hourOfDay < 100 && 0 <= minute < 100
    ensures var r := TimeText(hourOfDay, minute);
      |r| == 5 && r[2] == '.' &&
      IsDecimal(r[..2]) && Value(r[..2]) == hourOfDay &&
      IsDecimal(r[3..]) && Value(r[3..]) == minute
  {
    var h, m := DateTimeNumber(hourOfDay), DateTimeNumber(minute);
    DateTimeNumberDigits(hourOfDay);
    DateTimeNumberDigits(minute);
    assert (h + "." + m)[..2] == h && (h + "." + m)[3..] == m;
  }

  /** The date text ends in ".MM.DD"; the part before it reads back as the year, and from
      year 10 on it is the year's plain decimal form. The month reads back one-based. */
  lemma DateTextReadsBack(year: int, zeroBasedMonth: int, day: int)
    requires year >= 0 && 0 <= zeroBasedMonth < 99 && 0 <= day < 100
    ensures var r := DateText(year, zeroBasedMonth, day); var n := |r|;
      n >= 8 && r[n - 6] == '.' && r[n - 3] == '.' &&
      IsDecimal(r[..n - 6]) && Value(r[..n - 6]) == year &&
      IsDecimal(r[n - 5..n - 3]) && Value(r[n - 5..n - 3]) == zeroBasedMonth + 1 &&
      IsDecimal(r[n - 2..]) && Value(r[n - 2..]) == day &&
      (year >= 10 ==> r[..n - 6] == NatToDecimal(year))
  {
    YearField(year);
    TwoDigitField(zeroBasedMonth + 1);
    TwoDigitField(day);
    Split3(DateText(year, zeroBasedMonth, day), DateTimeNumber(year), DateTimeNumber(zeroBasedMonth + 1), DateTimeNumber(day));
  }

  /** A field below 100 is written with exactly two digits that read back as it. */
  lemma TwoDigitField(input: int)
    requires 0 <= input < 100
    ensures var r := DateTimeNumber(input); |r| == 2 && IsDecimal(r) && Value(r) == input
  {
    DateTimeNumberDigits(input);
  }

  /** A year is written with at least two digits that read back as it, in its plain decimal
      form from 10 on. */
  lemma YearField(year: int)
    requires year >= 0
    ensures var r := DateTimeNumber(year);
      |r| >= 2 && IsDecimal(r) && Value(r) == year && (year >= 10 ==> r == NatToDecimal(year))
  {
    DateTimeNumberDigits(year);
  }

  /** The three parts of a "Y.MM.DD" string, for any year part of at least two characters,
      are found again at their positions from the end. */
  lemma Split3(r: string, y: string, m: string, d: string)
    requires r == y + "." + m + "." + d
    requires |m| == 2 && |d| == 2 && |y| >= 2
    requires IsDecimal(y) && IsDecimal(m) && IsDecimal(d)
    ensures var n := |r|;
      n >= 8 && r[n - 6] == '.' && r[n - 3] == '.' &&
      r[..n - 6] == y && r[n - 5..n - 3] == m && r[n - 2..] == d &&
      IsDecimal(r[..n - 6]) && Value(r[..n - 6]) == Value(y) &&
      IsDecimal(r[n - 5..n - 3]) && Value(r[n - 5..n - 3]) == Value(m) &&
      IsDecimal(r[n - 2..]) && Value(r[n - 2..]) == Value(d)
  {
    var n := |r|;
    assert r[..n - 6] == y && r[n - 5..n - 3] == m && r[n - 2..] == d;
  }

  lemma {:induction false} LeadingDigitPositive(s: string)
    requires IsDecimal(s) && s != [] && s[0] != '0'
    ensures Value(s) >= 1
  {
    if |s| > 1 {
      LeadingDigitPositive(s[..|s| - 1]);
    }
  }

  /** Every canonical digit string is what Int.toString prints for its value. */
  lemma {:induction false} DecimalOfValue(s: string)
    requires Canonical(s)
    ensures NatToDecimal(Value(s)) == s
  {
    var p := s[..|s| - 1];
    if p != [] {
      assert Canonical(p);
      LeadingDigitPositive(p);
      DecimalOfValue(p);
      var v := Value(s);
      assert v / 10 == Value(p) && v % 10 == DigitValue(s[|s| - 1]);
      assert s == p + [s[|s| - 1]];
    }
  }

  /** The example 14:05 renders as "14.05". */
  lemma TimeTextExample()
    ensures TimeText(14, 5) == "14.05"
  {
  }

  /** A zero-based month 2 and day 7 of 2024 render as "2024.03.07". */
  lemma DateTextExample()
    ensures DateText(2024, 2, 7) == "2024.03.07"
  {
  }
}
