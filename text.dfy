/**
 * The pieces of Go's string library the report relies on: decimal output as
 * `strconv.Itoa` and the time layouts produce it, string ordering as
 * `slices.Sort` uses it, `strings.Split`, `strings.Join` and
 * `strings.TrimSpace`.
 */
module Text {

  predicate IsDigit(c: char) { '0' <= c <= '9' }

  predicate AllDigits(s: string) { forall i :: 0 <= i < |s| ==> IsDigit(s[i]) }

  function DigitChar(d: nat): (c: char)
    requires d < 10
    ensures IsDigit(c)
  {
    ('0' as int + d) as char
  }

  function DigitValue(c: char): nat
    requires IsDigit(c)
  {
    c as int - '0' as int
  }

  function Pow10(k: nat): (p: nat)
    ensures p >= 1
  {
    if k == 0 then 1 else 10 * Pow10(k - 1)
  }

  /** The decimal digits of `n`, without leading zeros ("0" for zero). */
  function Digits(n: nat): (s: string)
    ensures 1 <= |s| && AllDigits(s)
    decreases n
  {
    if n < 10 then [DigitChar(n)] else Digits(n / 10) + [DigitChar(n % 10)]
  }

  /** The number a string of digits denotes; leading zeros are allowed. */
  function Value(s: string): nat
    requires AllDigits(s)
  {
    if s == [] then 0 else 10 * Value(s[..|s| - 1]) + DigitValue(s[|s| - 1])
  }

  function Zeros(k: nat): (s: string)
    ensures |s| == k && AllDigits(s)
  {
    seq(k, _ => '0')
  }

  /**
   * Go's time-layout `appendInt(b, x, width)`: a '-' for a negative number,
   * then the magnitude's digits, padded with zeros on the left to `width`.
   */
  function FormatInt(x: int, width: nat): (s: string)
  {
    var d := Digits(if x < 0 then -x else x);
    (if x < 0 then "-" else "") + (if |d| < width then Zeros(width - |d|) else "") + d
  }

  /** `strconv.Itoa`. */
  function Itoa(x: int): string
  {
    FormatInt(x, 1)
  }

  /** `strconv.Atoi` on the strings `Itoa` produces. */
  function Atoi(s: string): int
  {
    if |s| >= 1 && s[0] == '-' && AllDigits(s[1..]) then 0 - Value(s[1..]) as int
    else if AllDigits(s) then Value(s)
    else 0
  }

  lemma {:induction false} ValueOfDigits(n: nat)
    ensures Value(Digits(n)) == n
    decreases n
  {
    var s := Digits(n);
    if n >= 10 {
      ValueOfDigits(n / 10);
      assert s[..|s| - 1] == Digits(n / 10);
    }
  }

  lemma {:induction false} ValueOfZerosPrefix(k: nat, s: string)
    requires AllDigits(s)
    ensures AllDigits(Zeros(k) + s) && Value(Zeros(k) + s) == Value(s)
    decreases |s|
  {
    var z := Zeros(k) + s;
    if s == [] {
      assert z == Zeros(k);
      ZerosValue(k);
    } else {
      assert z[..|z| - 1] == Zeros(k) + s[..|s| - 1];
      ValueOfZerosPrefix(k, s[..|s| - 1]);
    }
  }

  lemma {:induction false} ZerosValue(k: nat)
    ensures Value(Zeros(k)) == 0
  {
    if k > 0 {
      assert Zeros(k)[..k - 1] == Zeros(k - 1);
      ZerosValue(k - 1);
    }
  }

  /** The padded field denotes the number it was made from. */
  lemma FormatIntValue(n: nat, width: nat)
    ensures AllDigits(FormatInt(n, width)) && Value(FormatInt(n, width)) == n
  {
    var d := Digits(n);
    ValueOfDigits(n);
    if |d| < width {
      assert FormatInt(n, width) == Zeros(width - |d|) + d;
      ValueOfZerosPrefix(width - |d|, d);
    } else {
      assert FormatInt(n, width) == d;
    }
  }

  /** `strconv.Atoi` undoes `strconv.Itoa`. */
  lemma AtoiItoa(x: int)
    ensures Atoi(Itoa(x)) == x
  {
    var d := Digits(if x < 0 then -x else x);
    assert Itoa(x) == (if x < 0 then "-" else "") + d;
    ValueOfDigits(if x < 0 then -x else x);
    if x < 0 {
      assert Itoa(x)[1..] == d;
    } else {
      assert Itoa(x)[0] != '-';
    }
  }

  /** Distinct ids give distinct map keys, so keying by `Itoa(id)` loses nothing. */
  lemma ItoaInjective(x: int, y: int)
    ensures Itoa(x) == Itoa(y) <==> x == y
  {
    AtoiItoa(x);
    AtoiItoa(y);
  }

  // ---------------------------------------------------------------------
  // Ordering of strings, as Go compares them (code point by code point,
  // which for the UTF-8 bytes Go compares gives the same order).

  predicate Less(a: string, b: string)
  {
    if a == [] then b != []
    else if b == [] then false
    else if a[0] != b[0] then a[0] < b[0]
    else Less(a[1..], b[1..])
  }

  lemma {:induction false} LessIrreflexive(a: string)
    ensures !Less(a, a)
  {
    if a != [] {
      LessIrreflexive(a[1..]);
    }
  }

  lemma {:induction false} LessTransitive(a: string, b: string, c: string)
    requires Less(a, b) && Less(b, c)
    ensures Less(a, c)
  {
    if a != [] && b != [] && c != [] && a[0] == b[0] == c[0] {
      LessTransitive(a[1..], b[1..], c[1..]);
    }
  }

  lemma {:induction false} LessTotal(a: string, b: string)
    ensures a == b || Less(a, b) || Less(b, a)
  {
    if a != [] && b != [] && a[0] == b[0] {
      LessTotal(a[1..], b[1..]);
      if a[1..] == b[1..] {
        assert a == [a[0]] + a[1..] && b == [b[0]] + b[1..];
      }
    }
  }

  lemma {:induction false} LessAsymmetric(a: string, b: string)
    requires Less(a, b)
    ensures !Less(b, a)
  {
    if a != [] && b != [] && a[0] == b[0] {
      LessAsymmetric(a[1..], b[1..]);
    }
  }

  /** Comparing `a + x` with `b + y` for `a` and `b` of one length: `a` and `b` decide unless equal. */
  lemma {:induction false} LessConcat(a: string, x: string, b: string, y: string)
    requires |a| == |b|
    ensures Less(a + x, b + y) <==> Less(a, b) || (a == b && Less(x, y))
    decreases |a|
  {
    if a == [] {
      assert a + x == x && b + y == y && a == b;
      LessIrreflexive(a);
    } else {
      assert (a + x)[0] == a[0] && (b + y)[0] == b[0];
      assert (a + x)[1..] == a[1..] + x && (b + y)[1..] == b[1..] + y;
      LessConcat(a[1..], x, b[1..], y);
      if a[0] == b[0] && a[1..] == b[1..] {
        assert a == b;
      }
      if a == b {
        assert a[1..] == b[1..];
      }
    }
  }

  lemma {:induction false} ValueBound(s: string)
    requires AllDigits(s)
    ensures Value(s) < Pow10(|s|)
    decreases |s|
  {
    if s != [] {
      ValueBound(s[..|s| - 1]);
    }
  }

  /** The leading digit's weight: `Value(s) = s[0] * 10^(n-1) + Value(s[1..])`. */
  lemma {:induction false} ValueFront(s: string)
    requires AllDigits(s) && s != []
    ensures Value(s) == DigitValue(s[0]) * Pow10(|s| - 1) + Value(s[1..])
    decreases |s|
  {
    if |s| > 1 {
      var t := s[..|s| - 1];
      ValueFront(t);
      assert t[1..] == s[1..][..|s| - 2];
      assert t[0] == s[0];
    }
  }

  /** A smaller leading digit outweighs whatever follows it. */
  lemma LeadingDigitDecides(d1: nat, d2: nat, p: nat, r1: nat, r2: nat)
    requires d1 < d2 && r1 < p
    ensures d1 * p + r1 < d2 * p + r2
  {
    assert d1 * p + p == (d1 + 1) * p;
    assert (d1 + 1) * p <= d2 * p;
  }

  /** For digit strings of one length, string order is numeric order. */
  lemma {:induction false} LessDigits(s: string, t: string)
    requires AllDigits(s) && AllDigits(t) && |s| == |t|
    ensures Less(s, t) <==> Value(s) < Value(t)
    decreases |s|
  {
    if s != [] {
      ValueFront(s);
      ValueFront(t);
      ValueBound(s[1..]);
      ValueBound(t[1..]);
      var p := Pow10(|s| - 1);
      var a, b := DigitValue(s[0]), DigitValue(t[0]);
      if a < b {
        LeadingDigitDecides(a, b, p, Value(s[1..]), Value(t[1..]));
      } else if b < a {
        LeadingDigitDecides(b, a, p, Value(t[1..]), Value(s[1..]));
      } else {
        LessDigits(s[1..], t[1..]);
      }
    }
  }

  // ---------------------------------------------------------------------
  // strings.Split with a one-character separator, and strings.Join.

  /** Number of occurrences of `c` in `s`. */
  function Count(s: string, c: char): nat
  {
    if s == [] then 0 else (if s[0] == c then 1 else 0) + Count(s[1..], c)
  }

  /**
   * `strings.Split(s, sep)`: the pieces between separators; an empty string
   * gives one empty piece.
   */
  function Split(s: string, sep: char): (parts: seq<string>)
    ensures |parts| == Count(s, sep) + 1
    ensures forall i :: 0 <= i < |parts| ==> sep !in parts[i]
  {
    if s == [] then [""]
    else
      var rest := Split(s[1..], sep);
      if s[0] == sep then [""] + rest else [[s[0]] + rest[0]] + rest[1..]
  }

  /** `strings.Join(parts, sep)`. */
  function Join(parts: seq<string>, sep: string): string
  {
    if |parts| == 0 then ""
    else if |parts| == 1 then parts[0]
    else parts[0] + sep + Join(parts[1..], sep)
  }

  /** Joining the pieces with the separator gives back the string. */
  lemma {:induction false} JoinSplit(s: string, sep: char)
    ensures Join(Split(s, sep), [sep]) == s
  {
    if s != [] {
      var rest := Split(s[1..], sep);
      JoinSplit(s[1..], sep);
      if s[0] == sep {
        assert Join([""] + rest, [sep]) == "" + [sep] + Join(rest, [sep]);
      } else if |rest| == 1 {
        assert Split(s, sep) == [[s[0]] + rest[0]];
      } else {
        var parts := Split(s, sep);
        assert parts[1..] == rest[1..];
        assert Join(rest, [sep]) == rest[0] + [sep] + Join(rest[1..], [sep]);
      }
    }
  }

  lemma {:induction false} SplitAfterField(a: string, sep: char, t: string)
    requires sep !in a
    ensures Split(a + [sep] + t, sep) == [a] + Split(t, sep)
    decreases |a|
  {
    if a == [] {
      assert a + [sep] + t == [sep] + t;
      assert ([sep] + t)[1..] == t;
    } else {
      var s := a + [sep] + t;
      assert s[1..] == a[1..] + [sep] + t;
      SplitAfterField(a[1..], sep, t);
      assert [a[0]] + a[1..] == a;
    }
  }

  lemma {:induction false} SplitField(a: string, sep: char)
    requires sep !in a
    ensures Split(a, sep) == [a]
    decreases |a|
  {
    if a != [] {
      SplitField(a[1..], sep);
      assert [a[0]] + a[1..] == a;
    }
  }

  /**
   * Splitting a joined row gives back its fields, provided no field holds
   * the separator (Go writes the CSV fields without quoting).
   */
  lemma {:induction false} SplitJoin(parts: seq<string>, sep: char)
    requires |parts| >= 1
    requires forall i :: 0 <= i < |parts| ==> sep !in parts[i]
    ensures Split(Join(parts, [sep]), sep) == parts
  {
    if |parts| == 1 {
      SplitField(parts[0], sep);
    } else {
      SplitJoin(parts[1..], sep);
      SplitAfterField(parts[0], sep, Join(parts[1..], [sep]));
      assert [parts[0]] + parts[1..] == parts;
    }
  }

  // ---------------------------------------------------------------------
  // strings.TrimSpace

  /** `unicode.IsSpace`: Latin-1 white space and the Unicode White_Space property. */
  predicate IsSpace(c: char)
  {
    var n := c as int;
    n == 0x09 || n == 0x0A || n == 0x0B || n == 0x0C || n == 0x0D || n == 0x20
    || n == 0x85 || n == 0xA0 || n == 0x1680 || (0x2000 <= n <= 0x200A)
    || n == 0x2028 || n == 0x2029 || n == 0x202F || n == 0x205F || n == 0x3000
  }

  predicate AllSpace(s: string) { forall i :: 0 <= i < |s| ==> IsSpace(s[i]) }

  /** Drops the leading white space. */
  function TrimLeft(s: string): string
  {
    if s != [] && IsSpace(s[0]) then TrimLeft(s[1..]) else s
  }

  /** Drops the trailing white space. */
  function TrimRight(s: string): string
  {
    if s != [] && IsSpace(s[|s| - 1]) then TrimRight(s[..|s| - 1]) else s
  }

  /** `strings.TrimSpace`: what lies between the leading and the trailing white space. */
  function TrimSpace(s: string): string
  {
    TrimRight(TrimLeft(s))
  }

  lemma {:induction false} TrimLeftShape(s: string)
    ensures var r := TrimLeft(s);
      |r| <= |s| && r == s[|s| - |r|..] && AllSpace(s[..|s| - |r|]) && (r == [] || !IsSpace(r[0]))
  {
    if s != [] && IsSpace(s[0]) {
      TrimLeftShape(s[1..]);
    }
  }

  lemma {:induction false} TrimRightShape(s: string)
    ensures var r := TrimRight(s);
      |r| <= |s| && r == s[..|r|] && AllSpace(s[|r|..]) && (r == [] || !IsSpace(r[|r| - 1]))
  {
    if s != [] && IsSpace(s[|s| - 1]) {
      TrimRightShape(s[..|s| - 1]);
    }
  }

  /**
   * The trimmed text has no white space at either end, and it is the part of
   * the input between a run of leading and a run of trailing white space.
   */
  lemma TrimSpaceShape(s: string) returns (i: nat)
    ensures var r := TrimSpace(s);
      (r == [] || (!IsSpace(r[0]) && !IsSpace(r[|r| - 1])))
      && i + |r| <= |s| && r == s[i..i + |r|] && AllSpace(s[..i]) && AllSpace(s[i + |r|..])
  {
    var l := TrimLeft(s);
    TrimLeftShape(s);
    TrimRightShape(l);
    var r := TrimRight(l);
    i := |s| - |l|;
    assert s[i..i + |r|] == r;
    assert s[i + |r|..] == l[|r|..];
  }

  lemma TrimSpaceIdempotent(s: string)
    ensures TrimSpace(TrimSpace(s)) == TrimSpace(s)
  {
    var _ := TrimSpaceShape(s);
    var r := TrimSpace(s);
    assert TrimLeft(r) == r;
    assert TrimRight(r) == r;
  }
}
