/**
 * Calendar months and their "YYYY-MM" text form, as date-fns produces it with
 * `format(date, 'yyyy-MM')` and as `new Date("YYYY-MM-01")` reads it back.
 */
module Months {
  import opened Types

  datatype YearMonth = YearMonth(year: int, month: int)  // month 1..12

  predicate ValidMonth(ym: YearMonth) {
    1 <= ym.month <= 12
  }

  /** Months counted from January of year 0. */
  function Index(ym: YearMonth): int {
    ym.year * 12 + ym.month - 1
  }

  function FromIndex(i: int): (ym: YearMonth)
    ensures ValidMonth(ym) && Index(ym) == i
  {
    YearMonth(i / 12, i % 12 + 1)
  }

  lemma {:induction false} IndexInjective(a: YearMonth, b: YearMonth)
    requires ValidMonth(a) && ValidMonth(b) && Index(a) == Index(b)
    ensures a == b
  {
    assert a.year * 12 + (a.month - 1) == b.year * 12 + (b.month - 1);
  }

  /**
   * The month k months after ym (before it, for negative k): date-fns `addMonths` and the
   * `new Date(year, month - i, 1)` normalisation on the first day of a month.
   */
  function Shift(ym: YearMonth, k: int): (r: YearMonth)
    ensures ValidMonth(r) && Index(r) == Index(ym) + k
  {
    FromIndex(Index(ym) + k)
  }

  function Prev(ym: YearMonth): YearMonth { Shift(ym, -1) }

  function Next(ym: YearMonth): YearMonth { Shift(ym, 1) }

  /** December of the year before follows January backwards; otherwise the month number drops by one. */
  lemma {:induction false} PrevCases(ym: YearMonth)
    requires ValidMonth(ym)
    ensures ym.month == 1 ==> Prev(ym) == YearMonth(ym.year - 1, 12)
    ensures ym.month > 1 ==> Prev(ym) == YearMonth(ym.year, ym.month - 1)
  {
    if ym.month == 1 {
      IndexInjective(Prev(ym), YearMonth(ym.year - 1, 12));
    } else {
      IndexInjective(Prev(ym), YearMonth(ym.year, ym.month - 1));
    }
  }

  lemma {:induction false} NextCases(ym: YearMonth)
    requires ValidMonth(ym)
    ensures ym.month == 12 ==> Next(ym) == YearMonth(ym.year + 1, 1)
    ensures ym.month < 12 ==> Next(ym) == YearMonth(ym.year, ym.month + 1)
  {
    if ym.month == 12 {
      IndexInjective(Next(ym), YearMonth(ym.year + 1, 1));
    } else {
      IndexInjective(Next(ym), YearMonth(ym.year, ym.month + 1));
    }
  }

  lemma {:induction false} PrevNext(ym: YearMonth)
    requires ValidMonth(ym)
    ensures Prev(Next(ym)) == ym && Next(Prev(ym)) == ym
  {
    IndexInjective(Prev(Next(ym)), ym);
    IndexInjective(Next(Prev(ym)), ym);
  }

  // ---- "YYYY-MM" text ----

  function DigitChar(d: int): (c: char)
    requires 0 <= d <= 9
    ensures IsDigit(c)
  {
    ('0' as int + d) as char
  }

  predicate IsDigit(c: char) { '0' <= c <= '9' }

  function DigitValue(c: char): int requires IsDigit(c) { c as int - '0' as int }

  /** The decimal digits of n, without leading zeros. */
  function Digits(n: nat): (s: string)
    ensures |s| >= 1 && forall i :: 0 <= i < |s| ==> IsDigit(s[i])
  {
    if n < 10 then [DigitChar(n)] else Digits(n / 10) + [DigitChar(n % 10)]
  }

  function Zeros(k: nat): (s: string)
    ensures |s| == k && forall i :: 0 <= i < k ==> s[i] == '0'
  {
    if k == 0 then "" else "0" + Zeros(k - 1)
  }

  /** Left-pads with zeros to at least `width` characters. */
  function PadLeft(s: string, width: nat): (r: string)
    ensures |r| == if |s| >= width then |s| else width
  {
    if |s| >= width then s else Zeros(width - |s|) + s
  }

  predicate AllDigits(s: string) { forall i :: 0 <= i < |s| ==> IsDigit(s[i]) }

  /** The number a string of decimal digits denotes. */
  function DigitsValue(s: string): nat
    requires AllDigits(s)
  {
    if s == [] then 0 else DigitsValue(s[..|s| - 1]) * 10 + DigitValue(s[|s| - 1])
  }

  /** The year of the era that date-fns prints for 'y': 1 BC (year 0) is 1, 2 BC is 2, and so on. */
  function EraYear(y: int): (e: int)
    ensures e >= 1
  {
    if y > 0 then y else 1 - y
  }

  /** 'yyyy': the era year in at least four digits. */
  function FormatYear(y: int): string {
    PadLeft(Digits(EraYear(y)), 4)
  }

  /** `format(date, 'yyyy-MM')`. */
  function FormatMonth(ym: YearMonth): string
    requires ValidMonth(ym)
  {
    FormatYear(ym.year) + "-" + PadLeft(Digits(ym.month), 2)
  }

  /**
   * Reading "YYYY-MM" back, as `new Date("YYYY-MM-01")` does: four digits, a dash, two digits
   * naming a month 01..12; any other text gives an Invalid Date (None).
   */
  function ParseMonth(s: string): (r: Option<YearMonth>)
    ensures r.Some? ==> ValidMonth(r.value) && 0 <= r.value.year <= 9999
  {
    if |s| == 7 && s[4] == '-' && AllDigits(s[..4]) && AllDigits(s[5..])
       && 1 <= DigitsValue(s[5..]) <= 12
    then
      LeadingDigitsBound(s[..4]);
      Some(YearMonth(DigitsValue(s[..4]), DigitsValue(s[5..])))
    else None
  }

  lemma {:induction false} LeadingDigitsBound(s: string)
    requires AllDigits(s) && |s| <= 4
    ensures DigitsValue(s) < if |s| == 0 then 1 else if |s| == 1 then 10 else if |s| == 2 then 100
                             else if |s| == 3 then 1000 else 10000
    decreases |s|
  {
    if s != [] {
      LeadingDigitsBound(s[..|s| - 1]);
    }
  }

  lemma {:induction false} DigitsValueOfDigits(n: nat)
    ensures DigitsValue(Digits(n)) == n
    decreases n
  {
    if n >= 10 {
      DigitsValueOfDigits(n / 10);
      var s := Digits(n / 10) + [DigitChar(n % 10)];
      assert s[..|s| - 1] == Digits(n / 10);
    }
  }

  lemma {:induction false} DigitsLength(n: nat, w: nat)
    requires n < Pow10(w) && w >= 1
    ensures |Digits(n)| <= w
    decreases w
  {
    if n >= 10 {
      DigitsLength(n / 10, w - 1);
    }
  }

  function Pow10(w: nat): nat {
    if w == 0 then 1 else 10 * Pow10(w - 1)
  }

  lemma {:induction false} DigitsValueConcat(a: string, b: string)
    requires AllDigits(a) && AllDigits(b)
    ensures AllDigits(a + b)
    ensures DigitsValue(a + b) == DigitsValue(a) * Pow10(|b|) + DigitsValue(b)
    decreases |b|
  {
    if b != [] {
      var init := b[..|b| - 1];
      var ab := a + b;
      assert ab[..|ab| - 1] == a + init;
      assert ab[|ab| - 1] == b[|b| - 1];
      DigitsValueConcat(a, init);
      var d := DigitValue(b[|b| - 1]);
      assert DigitsValue(ab) == DigitsValue(a + init) * 10 + d;
      assert DigitsValue(b) == DigitsValue(init) * 10 + d;
      assert Pow10(|b|) == 10 * Pow10(|init|);
      ShiftDigit(DigitsValue(a), Pow10(|init|), DigitsValue(init), d);
    } else {
      assert a + b == a;
    }
  }

  /** Appending digit d multiplies the place value of the leading part by ten. */
  lemma {:induction false} ShiftDigit(x: int, p: int, y: int, d: int)
    ensures (x * p + y) * 10 + d == x * (10 * p) + (y * 10 + d)
  {
  }

  lemma {:induction false} ZerosValue(k: nat)
    ensures AllDigits(Zeros(k)) && DigitsValue(Zeros(k)) == 0
    decreases k
  {
    if k > 0 {
      assert Zeros(k) == Zeros(k - 1) + "0";
      ZerosExtend(k - 1);
      DigitsValueConcat(Zeros(k - 1), "0");
      ZerosValue(k - 1);
    }
  }

  lemma {:induction false} ZerosExtend(k: nat)
    ensures Zeros(k + 1) == Zeros(k) + "0"
    decreases k
  {
    if k > 0 {
      ZerosExtend(k - 1);
    }
  }

  lemma {:induction false} PaddedValue(n: nat, w: nat)
    ensures AllDigits(PadLeft(Digits(n), w)) && DigitsValue(PadLeft(Digits(n), w)) == n
  {
    DigitsValueOfDigits(n);
    if |Digits(n)| < w {
      ZerosValue(w - |Digits(n)|);
      DigitsValueConcat(Zeros(w - |Digits(n)|), Digits(n));
    }
  }

  /**
   * Parsing undoes formatting: the text reads back as the printed era year and the same month,
   * which is the month itself for the years 0001..9999.
   */
  lemma {:induction false} ParseFormat(ym: YearMonth)
    requires ValidMonth(ym) && EraYear(ym.year) <= 9999
    ensures ParseMonth(FormatMonth(ym)) == Some(YearMonth(EraYear(ym.year), ym.month))
    ensures ym.year >= 1 ==> ParseMonth(FormatMonth(ym)) == Some(ym)
  {
    var e := EraYear(ym.year);
    assert Pow10(4) == 10000 && Pow10(2) == 100;
    DigitsLength(e, 4);
    DigitsLength(ym.month, 2);
    var y := PadLeft(Digits(e), 4);
    var m := PadLeft(Digits(ym.month), 2);
    PaddedValue(e, 4);
    PaddedValue(ym.month, 2);
    var s := FormatMonth(ym);
    assert s == y + "-" + m;
    assert s[..4] == y && s[5..] == m && s[4] == '-';
  }

  /**
   * Formatting undoes parsing: a month text of the years 0001..9999 that parses is already in
   * canonical form; a year 0000 text comes back as year 0001, the era year date-fns prints.
   */
  lemma {:induction false} FormatParse(s: string)
    requires ParseMonth(s).Some?
    ensures ParseMonth(s).value.year >= 1 ==> FormatMonth(ParseMonth(s).value) == s
    ensures ParseMonth(s).value.year == 0 ==> FormatMonth(ParseMonth(s).value) == "0001" + s[4..]
  {
    var ym := ParseMonth(s).value;
    CanonicalDigits(s[..4]);
    CanonicalDigits(s[5..]);
    assert s == s[..4] + "-" + s[5..];
    assert s[4..] == "-" + s[5..];
    if ym.year == 0 {
      YearOneText();
    }
  }

  /** Year 1 (and so year 0) prints as "0001". */
  lemma {:induction false} YearOneText()
    ensures FormatYear(1) == "0001" && FormatYear(0) == "0001"
  {
    assert Digits(1) == "1";
    ZerosExtend(0);
    ZerosExtend(1);
    ZerosExtend(2);
    assert Zeros(3) == "000";
  }

  /** A digit string of fixed width is the zero-padded form of its value. */
  lemma {:induction false} CanonicalDigits(s: string)
    requires AllDigits(s) && 1 <= |s|
    ensures PadLeft(Digits(DigitsValue(s)), |s|) == s
    decreases |s|
  {
    var init := s[..|s| - 1];
    var d := DigitValue(s[|s| - 1]);
    var v := DigitsValue(s);
    assert v == DigitsValue(init) * 10 + d;
    assert DigitChar(d) == s[|s| - 1];
    if |s| == 1 {
      assert init == [] && v == d;
      assert [s[0]] == s;
    } else {
      CanonicalDigits(init);
      var vi := DigitsValue(init);
      assert v / 10 == vi && v % 10 == d;
      if vi == 0 {
        if d == 0 {
          assert v == 0;
          // s is all zeros
          assert PadLeft(Digits(0), |init|) == init;
          ZerosOne(|init|, init);
          ZerosExtend(|s| - 1);
          assert s == init + "0";
        } else {
          assert Digits(v) == [DigitChar(d)];
          assert PadLeft(Digits(0), |init|) == init;
          ZerosOne(|init|, init);
          assert init == Zeros(|s| - 1);
          assert s == init + [s[|s| - 1]];
        }
      } else {
        assert v >= 10;
        assert Digits(v) == Digits(vi) + [DigitChar(d)];
        assert s == init + [s[|s| - 1]];
      }
    }
  }

  /** The zero-padded form of 0 to width k is k zeros. */
  lemma {:induction false} ZerosOne(k: nat, s: string)
    requires k >= 1 && PadLeft(Digits(0), k) == s
    ensures s == Zeros(k)
  {
    assert Digits(0) == "0";
    if k > 1 {
      ZerosExtend(k - 1);
      assert Zeros(k - 1) + "0" == Zeros(k);
    }
  }

  /** The abbreviated English month name, date-fns 'MMM'. */
  function MonthAbbrev(ym: YearMonth): string
    requires ValidMonth(ym)
  {
    ["Jan", "Feb", "Mar", "Apr", "May", "Jun", "Jul", "Aug", "Sep", "Oct", "Nov", "Dec"][ym.month - 1]
  }
}
