/**
 * Calendar dates as the application reads them off a JavaScript `Date`
 * (`getFullYear()`, `getMonth() + 1`, `getDate()`), and the two textual forms it writes:
 * the stored zero-padded `DD-MM-YYYY` and the query-string `yyyy-MM-dd`.
 */
module Calendar {
  import opened Text

  /** A calendar date; `month` is 1-based. */
  datatype Date = Date(year: int, month: int, day: int)

  /** The values a JavaScript `Date` can report for month and day. */
  predicate Valid(d: Date) {
    1 <= d.month <= 12 && 1 <= d.day <= 31
  }

  /** `n.toString().padStart(2, '0')` */
  function Pad2(n: int): string {
    PadStart(IntToString(n), 2, '0')
  }

  /** `${dd}-${mm}-${yyyy}` with day and month padded to two digits. */
  function FormatDmy(d: Date): string {
    Pad2(d.day) + "-" + Pad2(d.month) + "-" + IntToString(d.year)
  }

  /** `format(d, 'yyyy-MM-dd')` of date-fns for years that are not negative. */
  function FormatIso(d: Date): string {
    PadStart(IntToString(d.year), 4, '0') + "-" + Pad2(d.month) + "-" + Pad2(d.day)
  }

  /** Chronological order of two valid dates: by year, then month, then day. */
  predicate OnOrBefore(a: Date, b: Date) {
    a.year < b.year
    || (a.year == b.year && (a.month < b.month || (a.month == b.month && a.day <= b.day)))
  }

  lemma OnOrBeforeTotalOrder(a: Date, b: Date, c: Date)
    ensures OnOrBefore(a, a)
    ensures OnOrBefore(a, b) || OnOrBefore(b, a)
    ensures OnOrBefore(a, b) && OnOrBefore(b, a) ==> a == b
    ensures OnOrBefore(a, b) && OnOrBefore(b, c) ==> OnOrBefore(a, c)
  {
  }

  /** A padded non-negative number is a run of digits worth that number. */
  lemma Pad2Digits(n: nat)
    ensures |Pad2(n)| >= 2 && AllDigits(Pad2(n)) && DigitsValue(Pad2(n)) == n
  {
    DigitsRoundTrip(n);
    PadStartDigits(NatToString(n), 2);
  }

  /** A day or month below 100 is written with exactly two characters, a leading `0` for one digit. */
  lemma Pad2Exactly(n: nat)
    requires n < 100
    ensures |Pad2(n)| == 2
    ensures n < 10 ==> Pad2(n)[0] == '0' && Pad2(n)[1] == DigitChar(n)
  {
    assert IntToString(n) == NatToString(n);
    if n >= 10 {
      assert |NatToString(n / 10)| == 1;
    }
  }

  /**
   * The stored form of a date: two characters of day, a `-`, two of month, a `-`, then
   * the year.
   */
  lemma FormatDmyShape(d: Date)
    requires Valid(d) && d.year >= 0
    ensures var t := FormatDmy(d);
      |t| >= 6 && t[2] == '-' && t[5] == '-'
      && t[..2] == Pad2(d.day) && t[3..5] == Pad2(d.month) && t[6..] == IntToString(d.year)
  {
    var dd, mm, yy := Pad2(d.day), Pad2(d.month), IntToString(d.year);
    assert |dd| == 2 && |mm| == 2 by {
      Pad2Exactly(d.day);
      Pad2Exactly(d.month);
    }
    DashedShape(dd, mm, yy);
    assert FormatDmy(d) == dd + "-" + mm + "-" + yy;
  }

  /** Where the two dashes fall when the first two parts have two characters each. */
  lemma DashedShape(a: string, b: string, c: string)
    requires |a| == 2 && |b| == 2
    ensures var t := a + "-" + b + "-" + c;
      |t| == 6 + |c| && t[2] == '-' && t[5] == '-' && t[..2] == a && t[3..5] == b && t[6..] == c
  {
    var t := a + "-" + b + "-" + c;
    assert t[..2] == a;
    assert t[3..5] == b;
    assert t[6..] == c;
  }

  /** A padded non-negative number holds no `-`. */
  lemma Pad2NoDash(n: nat)
    ensures '-' !in Pad2(n)
  {
    Pad2Digits(n);
    AllDigitsNoSep(Pad2(n), '-');
  }

  /** Splitting a formatted date on `-` gives back its three fields' texts. */
  lemma FormatDmySplit(d: Date)
    requires d.day >= 0 && d.month >= 0 && d.year >= 0
    ensures Split(FormatDmy(d), '-') == [Pad2(d.day), Pad2(d.month), IntToString(d.year)]
  {
    var dd, mm, yy := Pad2(d.day), Pad2(d.month), IntToString(d.year);
    Pad2NoDash(d.day);
    Pad2NoDash(d.month);
    SplitThreeOf(FormatDmy(d), dd, mm, yy);
  }

  /** A text written as three dash-free parts joined by `-` splits into those parts. */
  lemma SplitThreeOf(s: string, a: string, b: string, c: string)
    requires '-' !in a && '-' !in b && '-' !in c
    requires s == a + "-" + b + "-" + c
    ensures Split(s, '-') == [a, b, c]
  {
    assert s == a + ['-'] + (b + ['-'] + c);
    SplitThree(a, b, c);
  }

  lemma SplitThree(a: string, b: string, c: string)
    requires '-' !in a && '-' !in b && '-' !in c
    ensures Split(a + ['-'] + (b + ['-'] + c), '-') == [a, b, c]
  {
    SplitJoin(a, '-', b + ['-'] + c);
    SplitJoin(b, '-', c);
    SplitNoSep(c, '-');
  }
}
