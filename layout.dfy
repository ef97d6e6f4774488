/**
 * The three Go time layouts the report prints with: "2006-01-02" (the
 * grouping key), "02.01.2006" (the CSV date column) and "15:04" (the CSV time
 * columns), and the wall clock of the condensed rows' synthetic time block.
 */
module Layout {
  import opened Kimai
  import opened Text

  /** `Format("2006-01-02")`: the key entries are grouped by. */
  function DateKey(t: KimaiTime): string
  {
    FormatInt(t.year, 4) + ("-" + (FormatInt(t.month, 2) + ("-" + FormatInt(t.day, 2))))
  }

  /** `Format("02.01.2006")`. */
  function GermanDate(t: KimaiTime): string
  {
    FormatInt(t.day, 2) + "." + FormatInt(t.month, 2) + "." + FormatInt(t.year, 4)
  }

  /** `Format("15:04")` of a clock reading. */
  function ClockText(hour: int, minute: int): string
  {
    FormatInt(hour, 2) + ":" + FormatInt(minute, 2)
  }

  /** `Format("15:04")` of a time sheet's begin or end. */
  function Clock(t: KimaiTime): string
  {
    ClockText(t.hour, t.minute)
  }

  const SecondsPerDay: int := 86400

  /** The condensed rows' block starts at 09:00 of the run date. */
  const NineOClock: int := 9 * 3600

  /**
   * The "15:04" reading `seconds` after midnight of some day: Go's
   * `time.Add` carries into neighbouring days, and the layout shows only the
   * clock, so the count wraps at one day (downwards too, for a negative sum).
   * The reading shows the whole minutes elapsed since the last midnight.
   */
  function ClockAfterMidnight(seconds: int): (r: string)
    ensures |r| == 5 && r[2] == ':' && AllDigits(r[..2]) && AllDigits(r[3..])
    ensures Value(r[..2]) * 60 + Value(r[3..]) == (seconds % SecondsPerDay) / 60
  {
    var s := seconds % SecondsPerDay;
    var h, m := s / 3600, s % 3600 / 60;
    FieldOfWidth(h, 2);
    FieldOfWidth(m, 2);
    var r := ClockText(h, m);
    assert r[..2] == FormatInt(h, 2) && r[3..] == FormatInt(m, 2);
    r
  }

  /** A number below 10^w takes exactly `w` characters, all digits, denoting it. */
  lemma FieldOfWidth(n: nat, w: nat)
    requires 1 <= w && n < Pow10(w)
    ensures |FormatInt(n, w)| == w
    ensures AllDigits(FormatInt(n, w)) && Value(FormatInt(n, w)) == n
  {
    DigitsLength(n, w);
    FormatIntValue(n, w);
  }

  lemma {:induction false} DigitsLength(n: nat, w: nat)
    requires 1 <= w && n < Pow10(w)
    ensures |Digits(n)| <= w
    decreases n
  {
    if n >= 10 {
      DigitsLength(n / 10, w - 1);
    }
  }

  /** The calendar day of a time, as a triple compared field by field. */
  predicate DayBefore(a: KimaiTime, b: KimaiTime)
  {
    a.year < b.year
    || (a.year == b.year && a.month < b.month)
    || (a.year == b.year && a.month == b.month && a.day < b.day)
  }

  predicate SameDay(a: KimaiTime, b: KimaiTime)
  {
    a.year == b.year && a.month == b.month && a.day == b.day
  }

  /** Years the four-digit layout field can show without widening. */
  predicate FourDigitYear(t: KimaiTime)
  {
    0 <= t.year <= 9999 && t.Valid()
  }

  lemma DateKeyParts(t: KimaiTime)
    requires FourDigitYear(t)
    ensures |FormatInt(t.year, 4)| == 4 && |FormatInt(t.month, 2)| == 2 && |FormatInt(t.day, 2)| == 2
    ensures AllDigits(FormatInt(t.year, 4)) && Value(FormatInt(t.year, 4)) == t.year
    ensures AllDigits(FormatInt(t.month, 2)) && Value(FormatInt(t.month, 2)) == t.month
    ensures AllDigits(FormatInt(t.day, 2)) && Value(FormatInt(t.day, 2)) == t.day
  {
    FieldOfWidth(t.year, 4);
    FieldOfWidth(t.month, 2);
    FieldOfWidth(t.day, 2);
  }

  /**
   * The grouping key is faithful to the calendar day: two times share a key
   * exactly when they fall on the same day, and string order on keys is
   * chronological order on days. So sorting the keys sorts the days.
   */
  lemma DateKeyOrder(a: KimaiTime, b: KimaiTime)
    requires FourDigitYear(a) && FourDigitYear(b)
    ensures DateKey(a) == DateKey(b) <==> SameDay(a, b)
    ensures Less(DateKey(a), DateKey(b)) <==> DayBefore(a, b)
  {
    DateKeySame(a, b);
    DateKeyLess(a, b);
  }

  lemma DateKeySame(a: KimaiTime, b: KimaiTime)
    requires FourDigitYear(a) && FourDigitYear(b)
    ensures DateKey(a) == DateKey(b) <==> SameDay(a, b)
  {
    if DateKey(a) == DateKey(b) {
      DateKeyParts(a);
      DateKeyParts(b);
      FieldsEqual(FormatInt(a.year, 4), FormatInt(a.month, 2), FormatInt(a.day, 2),
                  FormatInt(b.year, 4), FormatInt(b.month, 2), FormatInt(b.day, 2));
    }
  }

  /** Keys of equally wide fields joined by '-' are equal only if their fields are. */
  lemma FieldsEqual(ya: string, ma: string, da: string, yb: string, mb: string, db: string)
    requires |ya| == |yb| && |ma| == |mb|
    requires ya + ("-" + (ma + ("-" + da))) == yb + ("-" + (mb + ("-" + db)))
    ensures ya == yb && ma == mb && da == db
  {
    var k, m := ya + ("-" + (ma + ("-" + da))), mb + ("-" + db);
    assert k[..|ya|] == ya && k[..|yb|] == yb;
    var t := k[|ya| + 1..];
    assert t == ma + ("-" + da) && t == m;
    assert t[..|ma|] == ma && t[..|mb|] == mb;
    assert t[|ma| + 1..] == da && t[|mb| + 1..] == db;
  }

  lemma DateKeyLess(a: KimaiTime, b: KimaiTime)
    requires FourDigitYear(a) && FourDigitYear(b)
    ensures Less(DateKey(a), DateKey(b)) <==> DayBefore(a, b)
  {
    DateKeyParts(a);
    DateKeyParts(b);
    var ya, ma, da := FormatInt(a.year, 4), FormatInt(a.month, 2), FormatInt(a.day, 2);
    var yb, mb, db := FormatInt(b.year, 4), FormatInt(b.month, 2), FormatInt(b.day, 2);
    FieldsLess(ya, ma, da, yb, mb, db);
    LessDigits(ya, yb);
    LessDigits(ma, mb);
    LessDigits(da, db);
    DigitsEqual(ya, yb);
    DigitsEqual(ma, mb);
  }

  /** Keys of equally wide fields joined by '-' compare field by field. */
  lemma FieldsLess(ya: string, ma: string, da: string, yb: string, mb: string, db: string)
    requires |ya| == |yb| && |ma| == |mb|
    ensures Less(ya + ("-" + (ma + ("-" + da))), yb + ("-" + (mb + ("-" + db)))) <==>
      Less(ya, yb) || (ya == yb && Less(ma, mb)) || (ya == yb && ma == mb && Less(da, db))
  {
    LessConcat(ya, "-" + (ma + ("-" + da)), yb, "-" + (mb + ("-" + db)));
    DashLess(ma + ("-" + da), mb + ("-" + db));
    LessConcat(ma, "-" + da, mb, "-" + db);
    DashLess(da, db);
  }

  lemma DashLess(p: string, q: string)
    ensures Less("-" + p, "-" + q) <==> Less(p, q)
  {
    LessConcat("-", p, "-", q);
    LessIrreflexive("-");
  }

  /** Equally wide digit strings are equal exactly when their values are. */
  lemma DigitsEqual(s: string, t: string)
    requires AllDigits(s) && AllDigits(t) && |s| == |t|
    ensures s == t <==> Value(s) == Value(t)
  {
    LessDigits(s, t);
    LessDigits(t, s);
    LessTotal(s, t);
  }
}
